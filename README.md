# EDUGuard backend, modelled in Dafny

EDUGuard watches a student through the webcam while they study. One webcam
server process captures frames and streams them, length-prefixed, to every
connected client. Detection worker processes are the clients: stress, posture,
CVS (eye strain, counted through blinks) and hydration. The Flask backend
starts and stops those processes through monitoring managers. Workers write
their results into the Firebase realtime database through `DatabaseManager`,
which `firebase_config.get_db_reference` binds to `firebase_admin`. An
in-memory mock of Firebase stands in for authentication and Firestore when
Firebase fails to start, and also offers a path-addressed tree with the same
reference interface. The reports API turns stored records into chart data.

This project models the core of that backend and proves properties of it:

- the frame wire format (`struct.pack("Q", n)` followed by the pickled frame)
  and the two ways workers read frames off their socket;
- the webcam server, as a class whose methods accept clients, broadcast a
  frame, drop failing clients and stop;
- the process managers: `ScriptManager` and the stress, posture and CVS
  monitoring managers. Each is a class whose methods are proved equal to
  functions on a state value; the properties are proved about those functions;
- the bookkeeping of the detection workers: blink counting and blink-rate
  alerts, hydration sampling and its summary, posture saving and alerts,
  stress batching;
- the mock Firebase store (a path-addressed tree plus Firestore-like
  documents and users), and `DatabaseManager`, run over the mock's tree in
  place of the Firebase realtime database;
- the report helpers: date parsing, date ranges, time labels and the chart
  builders, over a proleptic Gregorian calendar that mirrors Python's
  `datetime.date`.

Modelling conventions:

- Time is integer milliseconds, passed in as a parameter.
- Floating-point arithmetic becomes exact `real` arithmetic.
- A child process is a pid, and the set `live` says which pids still run.
  What `Popen` and `poll()` return, and whether a process exits within the
  termination grace period, are parameters.
- Socket reads are the sequence of chunks successive `recv` calls return.
- Camera reads, model predictions and random draws are parameters.

Where the code and its own documentation disagree, the model follows the
code. Where the code is evidently wrong, the model keeps the code as written
next to a corrected version, and the section "Findings" lists both. The
classes use the corrected behaviour.

## Model

| member | source | states |
|---|---|---|
| Common.TerminateSignals | backend/utils/script_manager.py:170-178 | `terminate()` is always sent first; `kill()` is sent exactly when the process is still alive and does not exit within the wait; every signal targets that process |
| Common.FindAlive | backend/posture_api.py:91-94 | the scan over the registered processes reports a running one exactly when some registered process is still running |
| Common.Capitalize | backend/utils/script_manager.py:67 | `str.capitalize()`: same length, first character upper-cased, every other character lower-cased |
| FrameWire.LittleRoundTrip | backend/utils/webcam_server.py:102 | reading back the little-endian bytes of a value that fits gives the value |
| FrameWire.BigRoundTrip | backend/utils/webcam_server.py:102 | the same round trip for big-endian bytes |
| FrameWire.QLimitIsPow | backend/utils/webcam_server.py:102 | the `Q` limit is 256 to the power of the prefix size |
| FrameWire.UnpackQ | backend/modelScrpits/hydration_detection.py:238 | every unpacked length is below 2^64 |
| FrameWire.PackQRoundTrip | backend/utils/webcam_server.py:102 | packing succeeds exactly for lengths below 2^64, yields 8 bytes, and unpacking gives the length back |
| FrameWire.EncodeMessage | backend/utils/webcam_server.py:102-108 | a frame can be sent exactly when its size fits the prefix; the message is 8 prefix bytes followed by the payload |
| FrameWire.ExtractEncoded | backend/modelScrpits/hydration_detection.py:236-244 | a buffer that starts with an encoded frame yields that frame and the bytes after it |
| FrameWire.EncodeAllCons | backend/utils/webcam_server.py:105-111 | the stream of several frames is the first frame's message followed by the stream of the rest |
| FrameWire.DecodeAllPrepend | backend/modelScrpits/hydration_detection.py:225-244 | decoding encoded frames followed by any bytes gives those frames, then whatever the bytes decode to |
| FrameWire.StreamRoundTrip | backend/modelScrpits/hydration_detection.py:225-244 | a byte stream made of encoded frames decodes to exactly those frames, in order |
| FrameReceive.FillOrGiveUp | backend/modelScrpits/cvs_detection.py:378-383 | the read loop either reports the closed peer or returns at least the bytes asked for, extending what it had |
| FrameReceive.ReceiveFrameSpec | backend/modelScrpits/cvs_detection.py:370-400 | one call of `receive_frame` never moves back in the connection |
| FrameReceive.ReceiveFrame | backend/modelScrpits/cvs_detection.py:370-400 | the loop-based reader returns exactly the frame and position `ReceiveFrameSpec` describes |
| FrameReceive.FillPrefix | backend/modelScrpits/hydration_detection.py:225-233 | the prefix loop either ends without a prefix or holds at least 8 bytes, never moving back and never past the end |
| FrameReceive.FillPayload | backend/modelScrpits/hydration_detection.py:241-242 | the payload loop never reports a closed peer; when it finishes it holds at least the payload size |
| FrameReceive.NextFrameSpec | backend/modelScrpits/hydration_detection.py:225-244 | a frame from the buffered reader never moves back; a frame taken without reading consumes buffered bytes |
| FrameReceive.NextFrame | backend/modelScrpits/simple_posture_detection.py:138-154 | the buffered reader's loops compute exactly `NextFrameSpec` |
| FrameReceive.FillPrefixDelivers | backend/modelScrpits/hydration_detection.py:225-233 | with no empty reads and 8 bytes still to come, the prefix loop completes and the bytes are conserved |
| FrameReceive.FillPayloadDelivers | backend/modelScrpits/hydration_detection.py:241-242 | with enough bytes still to come, the payload loop completes and the bytes are conserved |
| FrameReceive.NextFrameDelivers | backend/modelScrpits/simple_posture_detection.py:138-154 | when the buffer and the connection begin with an encoded frame, the reader returns that frame and keeps exactly the bytes after it, however the stream was chunked |
| FrameReceive.ReceiveFramesInOrder | backend/modelScrpits/stress_detection.py:54-68 | the buffered reader recovers every frame of an encoded stream, in order, whatever the chunking |
| FrameReceive.FirstFrameDelivered | backend/modelScrpits/hydration_detection.py:225-244 | the first of several encoded frames comes off the reader and the rest stay encoded in buffer plus connection |
| FrameReceive.ReceiveFrameLosesCoalescedFrame | backend/modelScrpits/cvs_detection.py:370-400 | as written: with two frames in one chunk, the first call returns frame one and the next call sees a closed connection |
| FrameReceive.BufferedReaderKeepsCoalescedFrame | backend/modelScrpits/hydration_detection.py:225-244 | the buffered reader returns both frames of that same chunk |
| WebcamServerModel.Without | backend/utils/webcam_server.py:113-120 | the client list minus the removed clients: membership is exactly "in the list and not removed" |
| WebcamServerModel.LeadingAccepts | backend/utils/webcam_server.py:62-73 | counts the successful `accept()` calls before the first failure |
| WebcamServerModel.RemoveDistinct | backend/utils/webcam_server.py:117 | `list.remove(c)` on a list without repeats removes exactly `c` and keeps it repeat-free |
| WebcamServerModel.SendToClients | backend/utils/webcam_server.py:105-111 | the clients collected as disconnected are exactly the listed clients whose send fails, in list order; each other listed client gets the frame appended |
| WebcamServerModel.DropClients | backend/utils/webcam_server.py:113-120 | the remaining list is the old one minus the disconnected clients, repeat-free; exactly the listed disconnected clients are closed |
| WebcamServerModel.DropKeepsCoherent | backend/utils/webcam_server.py:105-120 | dropping clients and extending streams with sendable frames keeps the server invariant |
| WebcamServerModel.WebcamServer.constructor | backend/utils/webcam_server.py:14-27 | a new server keeps its host, port and camera, and has no socket, no clients and is not running |
| WebcamServerModel.WebcamServer.AcceptConnections | backend/utils/webcam_server.py:58-73 | while running, each successful accept appends a fresh client with an empty stream; the first failure ends the loop; nothing else changes |
| WebcamServerModel.WebcamServer.BroadcastFrame | backend/utils/webcam_server.py:99-120 | the list loses exactly the failing clients, in order; every other listed client's stream gains the frame; exactly the failing listed clients are closed |
| WebcamServerModel.WebcamServer.Stop | backend/utils/webcam_server.py:139-157 | clears `running`, closes every listed client and the server socket, keeps the list |
| WebcamServerModel.WebcamServer.StreamWebcam | backend/utils/webcam_server.py:75-137 | a camera that does not open stops the server untouched; otherwise streams only grow and the list only loses clients |
| WebcamServerModel.WebcamServer.Start | backend/utils/webcam_server.py:29-56 | a failed bind stops the server and closes its socket; otherwise it streams, and streams only grow |
| WebcamServerModel.DeliveryStaysSendable | backend/utils/webcam_server.py:101-111 | adding a frame that fits the prefix keeps every client stream sendable |
| WebcamServerModel.BroadcastExtendsStream | backend/utils/webcam_server.py:101-111 | a client's byte stream after one more frame is its old stream plus that frame's message, and it decodes to exactly the frames sent |
| ScriptManagerModel.SplitKey | backend/utils/script_manager.py:432 | a process key splits exactly when it contains `_`; the first part has no `_` and the parts re-join to the key |
| ScriptManagerModel.SplitKeyRecovers | backend/utils/script_manager.py:432 | a key built as `"<type>_<user>"` from a type without `_` splits back into that type and user |
| ScriptManagerModel.ScriptTypesHaveNoUnderscore | backend/utils/script_manager.py:56-62 | no script type contains `_`, so every key splits back correctly |
| ScriptManagerModel.WebcamStartBody | backend/utils/script_manager.py:78-133 | a server answering on the port is reported as running and the reference then counts as running; a success without the probe leaves a real handle; a live handle is reused unchanged; the processes and signals are untouched |
| ScriptManagerModel.SentinelProbeFailsAsWritten | backend/utils/script_manager.py:81-90 | as written: with the placeholder reference and the server answering, `start_webcam_server` fails with `'bool' object has no attribute 'poll'` |
| ScriptManagerModel.WebcamStopBody | backend/utils/script_manager.py:142-188 | stopping is refused exactly when a live server handle exists and a registered process still runs; a refusal changes nothing; a success drops the reference and signals only a live handle, through `terminate` then `kill` |
| ScriptManagerModel.SpawnWorker | backend/utils/script_manager.py:239-296 | success exactly when the script started and still runs after the 10 s start-up wait; it is registered on success and unregistered when it started but exited; the lock is released |
| ScriptManagerModel.StartMonitoringSpec | backend/utils/script_manager.py:190-301 | unknown types are refused with the state unchanged; a live registration is reported as already active and nothing changes; otherwise a webcam step that fails (no answer on the port, no live handle, and the new server raised or exited within 3 s) is reported with its message prefixed once more, and else success exactly when the script survives the start-up wait and is registered under the key; a failure leaves nothing registered under the key; an answering port turns a missing or dead reference into the placeholder, a new launch becomes the reference, a running reference is kept; other keys are unchanged; the lock is free afterwards |
| ScriptManagerModel.StartAfterReap | backend/utils/script_manager.py:220-296 | with the key free: a failure registers nothing; a failed webcam step is reported with its message, otherwise success exactly when the script survives the start-up wait and is then registered under the key; the webcam reference becomes the placeholder (port answers, reference not running), stays (live), or becomes the new launch; other keys are unchanged |
| ScriptManagerModel.StopMonitoringBody | backend/utils/script_manager.py:318-355 | always succeeds; removes the key; a running process gets `terminate`, then `kill` if it does not exit; nothing else changes |
| ScriptManagerModel.StopMonitoringSpec | backend/utils/script_manager.py:303-318 | an unknown type is refused before the lock with the state unchanged; a known type returns exactly when the lock is free, and then succeeds, forgets the key and keeps the webcam reference; a blocked call changes nothing |
| ScriptManagerModel.MonitoringStatusSpec | backend/utils/script_manager.py:357-422 | the server counts as active exactly when the reference runs or the port answers; a non-webcam type reports monitoring exactly when its registered process runs |
| ScriptManagerModel.StartIsIdempotent | backend/utils/script_manager.py:209-214 | starting the same monitoring twice starts one process; the second call only reports it as already active |
| ScriptManagerModel.StartStatusStop | backend/utils/script_manager.py:190-422 | a started process shows as monitoring while it runs; after `stop_monitoring` it does not, and it was sent `terminate` |
| ScriptManagerModel.StartMonitoringAsWrittenBlocks | backend/utils/script_manager.py:206-227 | as written: with no server on the port and no live registration, `start_monitoring` never returns and the lock stays held |
| ScriptManagerModel.HeldLockBlocksEverything | backend/utils/script_manager.py:42 | while the lock is held, every locking operation blocks forever |
| ScriptManagerModel.CleanupAsWrittenBlocks | backend/utils/script_manager.py:424-448 | as written: `cleanup` with a process the manager registered (its key splits into a known type and a user) or with a server reference never returns |
| ScriptManagerModel.WebcamFailureRegistersNothing | backend/utils/script_manager.py:221-230 | when no server answers, no handle is live and the new server raised or exited within its 3 s wait, the corrected start replies with the webcam step's message prefixed once more, forgets the key and keeps the new handle as the reference |
| ScriptManagerModel.KeysValidInsert | backend/utils/script_manager.py:209 | registering a key of a known type keeps every key splittable into type and user |
| ScriptManagerModel.KeysValidRemove | backend/utils/script_manager.py:293-294 | removing a key keeps every key splittable |
| ScriptManagerModel.RegisterThenDrop | backend/utils/script_manager.py:269-294 | registering a key and dropping it again leaves the other keys as they were |
| ScriptManagerModel.StopOneKey | backend/utils/script_manager.py:428-437 | one stop inside `cleanup` removes the key, keeps the server reference, only appends signals, and sends `terminate` to a running process |
| ScriptManagerModel.ScriptManager.constructor | backend/utils/script_manager.py:38-62 | a new manager has no processes, no server reference and no signals |
| ScriptManagerModel.ScriptManager.StartWebcamServer | backend/utils/script_manager.py:71-133 | the new state and reply are exactly `WebcamStartBody`'s |
| ScriptManagerModel.ScriptManager.LaunchWebcam | backend/utils/script_manager.py:92-128 | the new state and reply are exactly those of the launch step without a server on the port |
| ScriptManagerModel.ScriptManager.StopWebcamServer | backend/utils/script_manager.py:135-188 | the new state and reply are exactly `WebcamStopBody`'s |
| ScriptManagerModel.ScriptManager.StartMonitoring | backend/utils/script_manager.py:190-301 | the new state and reply are exactly `StartMonitoringSpec`'s, the corrected start |
| ScriptManagerModel.ScriptManager.StartAfterReapStep | backend/utils/script_manager.py:220-296 | the new state and reply are exactly `StartAfterReap`'s |
| ScriptManagerModel.ScriptManager.Spawn | backend/utils/script_manager.py:239-296 | the new state and reply are exactly `SpawnWorker`'s; the start-up loop polls every half second for at most 20 ticks |
| ScriptManagerModel.ScriptManager.StopMonitoring | backend/utils/script_manager.py:303-355 | the new state and reply are exactly those of `StopMonitoringSpec` |
| ScriptManagerModel.ScriptManager.GetMonitoringStatus | backend/utils/script_manager.py:357-422 | returns exactly `MonitoringStatusSpec` and changes nothing |
| ScriptManagerModel.ScriptManager.Cleanup | backend/utils/script_manager.py:424-448 | corrected `cleanup`: no process and no server reference remain; signals are only appended; every running process and a live server got `terminate` |
| UserRegistry.ReapDead | backend/stress_api.py:68-76 | the start stops at "already active" exactly when the user's registered process runs; otherwise only an exited entry is forgotten |
| UserRegistry.SpawnUser | backend/stress_api.py:82-112 | success exactly when the script launched and still runs two seconds later; it is registered on success; an exited script is unregistered; a raising `Popen` is reported and changes nothing |
| UserRegistry.StopUser | backend/stress_api.py:114-141 | always succeeds; the user's entry is removed; a registered process gets `terminate`, then `kill` if it is still alive and does not exit; without an entry nothing changes |
| UserRegistry.StatusOf | backend/stress_api.py:143-161 | reports monitoring exactly when the user's registered process runs, and the server active exactly when the manager's server reference runs |
| UserRegistry.ReleaseWebcam | backend/stress_api.py:172-177 | a server reference, running or not, gets `terminate` (then `kill`) and is dropped; the processes are untouched |
| UserRegistry.ManagerRouteReply | backend/posture_api.py:522-535 | the route answers 200 exactly when the manager stopped the server, 500 otherwise, with the manager's message |
| StressApi.StartWebcamSpec | backend/stress_api.py:31-63 | a running own server is reused unchanged; otherwise success exactly when the new server launched and still runs after 3 s, and the reference is the new process even when it failed |
| StressApi.StartStressOutcome | backend/stress_api.py:65-112 | success exactly when the user's process already ran, or the server is or comes up and the new script still runs after 2 s; success exactly when the user ends up registered; other users are unchanged |
| StressApi.StartStressIdempotent | backend/stress_api.py:68-73 | a second start while the first process runs changes nothing and reports "Monitoring already active" |
| StressApi.StopStressEndsMonitoring | backend/stress_api.py:114-161 | after a stop the user is no longer monitored and the server status is unchanged |
| StressApi.StressMonitoringManager.constructor | backend/stress_api.py:27-29 | a new manager has no processes and no server reference |
| StressApi.StressMonitoringManager.StartWebcamServer | backend/stress_api.py:31-63 | the reply and new state are exactly `StartWebcamSpec`'s |
| StressApi.StressMonitoringManager.StartStressMonitoring | backend/stress_api.py:65-112 | the reply and new state are exactly those of the start whose outcome `StartStressOutcome` states |
| StressApi.StressMonitoringManager.SpawnScript | backend/stress_api.py:82-108 | the reply and new state are exactly `SpawnUser`'s for the stress script |
| StressApi.StressMonitoringManager.StopStressMonitoring | backend/stress_api.py:114-141 | the reply and new state are exactly `StopUser`'s for stress |
| StressApi.StressMonitoringManager.GetMonitoringStatus | backend/stress_api.py:143-161 | returns exactly `StatusOf` and changes nothing |
| StressApi.StressMonitoringManager.Cleanup | backend/stress_api.py:163-181 | no process and no server reference remain; signals are only appended; every registered process and the server got `terminate` |
| PostureApi.PostureStartWebcamSpec | backend/posture_api.py:33-76 | success exactly when the stress manager's server, the own server or a new server runs; the stress server is reused first, then the own one; a new running server is handed to the stress manager; the processes are untouched |
| PostureApi.PostureStopWebcamSpec | backend/posture_api.py:78-118 | refused, changing nothing, exactly when the server runs and a stress process runs; otherwise the own reference is dropped, a running server gets `terminate`, and the stress manager no longer refers to it |
| PostureApi.PostureStopLeavesStaleStressReference | backend/posture_api.py:108-111 | as written: stopping a server both managers share terminates it but leaves the stress manager referring to it |
| PostureApi.PostureStopClearsSharedReference | backend/posture_api.py:108-111 | the corrected stop leaves neither manager referring to the stopped server |
| PostureApi.StartPostureOutcome | backend/posture_api.py:120-168 | success exactly when the user's process ran, or some server is available and the new script still runs after 2 s; registered exactly on success; other users and the stress registry unchanged; a raising server start is reported with its error |
| PostureApi.StartPostureSucceeds | backend/posture_api.py:120-168 | the success condition of the start and the reply of a raising server start |
| PostureApi.StartPostureRegisters | backend/posture_api.py:139-164 | the user is registered exactly on success; other users and the stress registry are unchanged |
| PostureApi.StartPostureReusesStressServer | backend/posture_api.py:38-44 | a start that finds the stress server running starts no server and shares that one, leaving the stress manager as it was |
| PostureApi.PostureRouteGuardsRunningWorkers | backend/posture_api.py:503-543 | the route answers 200 exactly when no posture process runs and the stop is not refused for a running stress process; then the posture manager holds no reference; a refusal changes nothing |
| PostureApi.PostureMonitoringManager.constructor | backend/posture_api.py:29 | a new manager has no processes and no reference, and is tied to the stress manager |
| PostureApi.PostureMonitoringManager.StartWebcamServer | backend/posture_api.py:33-76 | both managers' new states and the reply are exactly `PostureStartWebcamSpec`'s |
| PostureApi.PostureMonitoringManager.StopWebcamServer | backend/posture_api.py:78-118 | both managers' new states and the reply are exactly `PostureStopWebcamSpec`'s, the corrected stop |
| PostureApi.PostureMonitoringManager.StartPostureMonitoring | backend/posture_api.py:120-168 | both managers' new states and the reply are exactly those of the start `StartPostureOutcome` describes |
| PostureApi.PostureMonitoringManager.SpawnScript | backend/posture_api.py:139-164 | the reply and new state are exactly `SpawnUser`'s for the posture script |
| PostureApi.PostureMonitoringManager.StopPostureMonitoring | backend/posture_api.py:170-197 | the reply and new state are exactly `StopUser`'s for posture |
| PostureApi.PostureMonitoringManager.GetMonitoringStatus | backend/posture_api.py:199-217 | returns exactly `StatusOf` and changes nothing |
| PostureApi.PostureMonitoringManager.Cleanup | backend/posture_api.py:219-237 | no process and no reference remain; signals are only appended; every registered process and the server got `terminate` |
| PostureApi.StopWebcamRoute | backend/posture_api.py:503-543 | the answer and both managers' new states are exactly those of the route `PostureRouteGuardsRunningWorkers` describes |
| CvsApi.CvsStartWebcamSpec | backend/cvs_api.py:31-82 | success exactly when the posture server, the stress server, the own server or a new one runs, tried in that order; a new running server is handed to both other managers; the processes are untouched |
| CvsApi.CvsStopRefusal | backend/cvs_api.py:98-108 | no refusal exactly when no posture and no stress process runs |
| CvsApi.CvsStopWebcamSpec | backend/cvs_api.py:84-132 | refused, changing nothing, exactly when the server runs and a posture or stress process runs; otherwise the own reference is dropped and neither other manager refers to the stopped server |
| CvsApi.CvsStopLeavesStaleReferences | backend/cvs_api.py:120-125 | as written: stopping the server all three managers share terminates it but leaves the posture and stress managers referring to it |
| CvsApi.CvsStopClearsSharedReferences | backend/cvs_api.py:120-125 | the corrected stop leaves no manager referring to the stopped server |
| CvsApi.CvsFailedStartKeepsDeadEntry | backend/cvs_api.py:158-182 | as written: a script that exits at once yields the reply `'NoneType' object has no attribute 'decode'` and stays registered although it is not running |
| CvsApi.StartCvsOutcome | backend/cvs_api.py:134-182 | corrected start: success exactly when the user's process ran, or some server is available and the new script still runs after 2 s; registered exactly on success; other users and the other registries unchanged |
| CvsApi.StartCvsSucceeds | backend/cvs_api.py:134-182 | the success condition of the corrected start |
| CvsApi.StartCvsRegisters | backend/cvs_api.py:158-182 | the user is registered exactly on success; other users and the other registries are unchanged |
| CvsApi.CvsRouteGuardsRunningWorkers | backend/cvs_api.py:553-593 | with the server running, the route answers 200 exactly when no CVS, posture or stress process runs; then the reference is gone and the server got `terminate`; a refusal changes nothing |
| CvsApi.CVSMonitoringManager.constructor | backend/cvs_api.py:27 | a new manager has no processes and no reference, and is tied to the posture and stress managers |
| CvsApi.CVSMonitoringManager.StartWebcamServer | backend/cvs_api.py:31-82 | all three managers' new states and the reply are exactly `CvsStartWebcamSpec`'s |
| CvsApi.CVSMonitoringManager.StopWebcamServer | backend/cvs_api.py:84-132 | all three managers' new states and the reply are exactly `CvsStopWebcamSpec`'s, the corrected stop |
| CvsApi.CVSMonitoringManager.StartCvsMonitoring | backend/cvs_api.py:134-182 | all three managers' new states and the reply are exactly those of the corrected start |
| CvsApi.CVSMonitoringManager.SpawnScript | backend/cvs_api.py:158-182 | the reply and new state are exactly `SpawnUser`'s for the CVS script, with its error output captured |
| CvsApi.CVSMonitoringManager.StopCvsMonitoring | backend/cvs_api.py:184-211 | the reply and new state are exactly `StopUser`'s for CVS |
| CvsApi.CVSMonitoringManager.GetMonitoringStatus | backend/cvs_api.py:213-231 | returns exactly `StatusOf` and changes nothing |
| CvsApi.CVSMonitoringManager.Cleanup | backend/cvs_api.py:233-251 | no process and no reference remain; signals are only appended; every registered process and the server got `terminate` |
| CvsApi.StopWebcamRoute | backend/cvs_api.py:553-593 | the answer and all three managers' new states are exactly those of the route `CvsRouteGuardsRunningWorkers` describes |
| CvsDetection.CheckBlinkRate | backend/modelScrpits/cvs_detection.py:294-321 | a rate above 20 raises a high-rate alert, below 17 a low-rate alert, and 17 to 20 nothing |
| CvsDetection.TrailingClosed | backend/modelScrpits/cvs_detection.py:213-230 | the closed run at the end of a sequence of eye observations is no longer than the sequence |
| CvsDetection.BlinkFoldSnoc | backend/modelScrpits/cvs_detection.py:183-230 | processing one more face is one more step of the counter logic |
| CvsDetection.ClosedRunSnoc | backend/modelScrpits/cvs_detection.py:213-230 | a closed observation extends the closed run by one; an open one ends it |
| CvsDetection.BlinkFoldCounts | backend/modelScrpits/cvs_detection.py:183-230 | the counter logic over a frame's faces finds exactly the blinks of the reference count (an opening after at least two closed observations) and carries the trailing closed run into the next frame |
| CvsDetection.DetectSpec | backend/modelScrpits/cvs_detection.py:149-275 | a faceless frame raises the faceless count; a frame with a face resets it and adds its blinks; after 30 faceless frames and a minute 18 is saved; after a minute the minute's count is saved, checked against 17 to 20 and reset; within a minute nothing is saved |
| CvsDetection.PerMinute | backend/modelScrpits/cvs_detection.py:351-354 | blinks per elapsed seconds times 60 equals blinks times 60000 over the elapsed milliseconds |
| CvsDetection.StopSpec | backend/modelScrpits/cvs_detection.py:345-356 | stopping saves the partial minute's count scaled to a minute exactly when time has passed and a blink was counted |
| CvsDetection.BlinksAccumulateWithinMinute | backend/modelScrpits/cvs_detection.py:183-263 | within one minute with a face in every frame nothing is saved or raised, and the total grows by exactly the reference count over all the frames |
| CvsDetection.CountAcrossFrames | backend/modelScrpits/cvs_detection.py:185-230 | counting two stretches one after the other, carrying the run, equals counting both at once |
| CvsDetection.BlinkFoldAppend | backend/modelScrpits/cvs_detection.py:213-230 | the counter logic over two stretches equals running it over the first and then the second |
| CvsDetection.BlinkDetector.constructor | backend/modelScrpits/cvs_detection.py:75-106 | a new detector starts with zero counts, the minute starting now, and nothing saved |
| CvsDetection.BlinkDetector.CheckBlinkRateAlert | backend/modelScrpits/cvs_detection.py:294-321 | appends exactly the alert `CheckBlinkRate` calls for and changes nothing else |
| CvsDetection.BlinkDetector.DetectBlinks | backend/modelScrpits/cvs_detection.py:149-275 | the loop over the faces leaves the detector exactly in the state `DetectSpec` describes |
| CvsDetection.BlinkDetector.CloseWindowIfDue | backend/modelScrpits/cvs_detection.py:248-263 | the window rule: once a minute is over its count is saved and checked, and counting restarts |
| CvsDetection.BlinkDetector.Stop | backend/modelScrpits/cvs_detection.py:345-356 | the detector ends in exactly the state `StopSpec` describes |
| HydrationWorker.GetUserInfo | backend/modelScrpits/hydration_detection.py:143-159 | the worker gives up exactly when the e-mail argument is missing; the report id is present exactly when a third argument is |
| HydrationWorker.NoMouthReadsNormal | backend/modelScrpits/hydration_detection.py:252-261 | a frame without a mouth below the nose reads as normal lips with texture 0 |
| HydrationWorker.LastMouthDecides | backend/modelScrpits/hydration_detection.py:255-285 | otherwise the last mouth below the nose decides the label, by the 0.17 dryness threshold, and the texture |
| HydrationWorker.Labels | backend/modelScrpits/hydration_detection.py:305 | the batch holds the label of each sample, in order |
| HydrationWorker.SamplesSpaced | backend/modelScrpits/hydration_detection.py:214-306 | every sample lies inside the two minutes, and each is at least a second after the one before |
| HydrationWorker.SampleTimesGrow | backend/modelScrpits/hydration_detection.py:293-306 | the k-th sample comes at least k + 1 seconds after the start of saving |
| HydrationWorker.AtMostOneSamplePerSecond | backend/modelScrpits/hydration_detection.py:214-306 | a run takes fewer than 120 samples |
| HydrationWorker.CollectSamples | backend/modelScrpits/hydration_detection.py:214-318 | the main loop saves exactly the samples of the sampling rule, batches their labels, and stops at the first pass two minutes after the start |
| HydrationWorker.Count | backend/modelScrpits/hydration_detection.py:321-323 | a label count never exceeds the batch size |
| HydrationWorker.CountsPartition | backend/modelScrpits/hydration_detection.py:321-323 | the dry and the normal counts add up to the batch size |
| HydrationWorker.DrySumCounts | backend/modelScrpits/hydration_detection.py:328 | the sum of the dry flags is the dry count |
| HydrationWorker.SummaryConsistent | backend/modelScrpits/hydration_detection.py:319-340 | a summary exists exactly for a non-empty batch; its counts add up to the total, the average dryness is the dry fraction, and the percentages add up to 100 |
| HydrationWorker.ShareArithmetic | backend/modelScrpits/hydration_detection.py:324-328 | the mean of the dry flags times the total is the dry count, and the two shares make up 100 percent |
| HydrationWorker.AlertIffMostlyDry | backend/modelScrpits/hydration_detection.py:345-359 | the alert is due exactly when more than three fifths of the samples read as dry lips |
| HydrationWorker.FinishRun | backend/modelScrpits/hydration_detection.py:319-359 | with the summary saved, no alert without a summary |
| HydrationWorker.DehydrationAlertLostAsWritten | backend/modelScrpits/hydration_detection.py:343 | as written: a run of only dry samples calls for a summary and an alert, but saves neither |
| HydrationWorker.RunAlertsOnMostlyDry | backend/modelScrpits/hydration_detection.py:214-359 | sampling then summarising raises the alert exactly when the run sampled mostly dry lips |
| PostureWorker.Classify | backend/modelScrpits/simple_posture_detection.py:167-201 | "Unknown" exactly without landmarks; "Good Posture" exactly when the classifier predicts 1; "Bad Posture" for any other prediction |
| PostureWorker.BadCount | backend/modelScrpits/simple_posture_detection.py:98-99 | the number of bad postures never exceeds the number of predictions looked at |
| PostureWorker.AlertAfterSave | backend/modelScrpits/simple_posture_detection.py:88-107 | any alert is a "warning" counting two or three bad postures |
| PostureWorker.AlertNeedsAnotherBadPosture | backend/modelScrpits/simple_posture_detection.py:88-107 | with the saved posture the newest of the recent ones, an alert is raised exactly when the save returned a key, the posture is bad, there are at least three recent predictions and one of the two before it is bad |
| PostureWorker.RunPosture | backend/modelScrpits/simple_posture_detection.py:114-234 | the main loop saves exactly the postures `PostureRun` lists and ends the way it says |
| PostureWorker.PostureLoopStep | backend/modelScrpits/simple_posture_detection.py:135-222 | one frame of the loop keeps "saves so far followed by the rest of the run is the whole run" |
| PostureWorker.SavesGated | backend/modelScrpits/simple_posture_detection.py:219-222 | no "Unknown" posture is saved, and saves are at least three seconds apart |
| PostureWorker.NothingLeftMeansEnd | backend/modelScrpits/simple_posture_detection.py:138-146 | with no empty reads, a connection with nothing left to deliver has been read to its end |
| PostureWorker.ClosedStreamEndsLoop | backend/modelScrpits/simple_posture_detection.py:135-154 | a server that sends whole frames and closes ends the loop normally, after at most one save per frame, however its bytes were chunked |
| StressWorker.StressArgsAsWritten | backend/modelScrpits/stress_detection.py:20-25 | as written, the worker starts only with at least three arguments, taking the e-mail and the report id from them |
| StressWorker.StressWorkerDiesWithoutReportId | backend/modelScrpits/stress_detection.py:25 | as written: the command line `ScriptManager` builds without a report id makes the worker fail |
| StressWorker.StressArgsOf | backend/modelScrpits/stress_detection.py:20-25 | corrected: the worker gives up exactly when the e-mail is missing; the report id is optional |
| StressWorker.StressArgsAgreeWhenComplete | backend/modelScrpits/stress_detection.py:20-25 | wherever the worker as written starts, the corrected reading starts it with the same arguments, and both give up on the same command lines for a missing e-mail |
| StressWorker.EmotionOf | backend/modelScrpits/stress_detection.py:31 | the label lookup succeeds exactly for the classes 0 to 6 |
| StressWorker.LabelsAreAllClasses | backend/modelScrpits/stress_detection.py:31 | the seven labels are the classes 0 to 6, each named once |
| StressWorker.StressLevel | backend/modelScrpits/stress_detection.py:106-114 | every stress value is 0.2, 0.4, 0.6 or 0.8 |
| StressWorker.StressValueMatchesLevel | backend/modelScrpits/stress_detection.py:106-114 | the name-based chain gives each emotion its level; 0.8 exactly for anger, fear and sadness, 0.2 exactly for happiness and neutral |
| StressWorker.Flush | backend/modelScrpits/stress_detection.py:103-118 | a flush writes one record per batched emotion |
| StressWorker.Levels | backend/modelScrpits/stress_detection.py:104-114 | one stress value per emotion |
| StressWorker.LevelsAppend | backend/modelScrpits/stress_detection.py:104-114 | the values of two batches one after the other are the values of each, concatenated |
| StressWorker.RecordLevelsAppend | backend/modelScrpits/stress_detection.py:104-118 | the same for written records |
| StressWorker.FlushLevels | backend/modelScrpits/stress_detection.py:104-118 | a flush writes the batch's stress values in batch order |
| StressWorker.StepConservation | backend/modelScrpits/stress_detection.py:93-123 | one face: what it writes followed by what stays batched is the old batch plus what it sampled |
| StressWorker.BatchConservation | backend/modelScrpits/stress_detection.py:77-123 | nothing sampled is lost or written twice: everything written followed by what is still batched is the starting batch followed by every sampled emotion, in order |
| StressWorker.FlushStamps | backend/modelScrpits/stress_detection.py:103-118 | every record of a flush carries the flush's timestamp |
| StressWorker.FlushSharesTimestamp | backend/modelScrpits/stress_detection.py:99-123 | a face writes records only when it closes a minute; they carry its time; the batch is then empty and the next minute starts then |
| StressWorker.WriteBatch | backend/modelScrpits/stress_detection.py:104-118 | the loop writes exactly the flush of the batch |
| StressWorker.StepFace | backend/modelScrpits/stress_detection.py:93-123 | the body of the face loop computes exactly one step of the batching |
| StressWorker.ProcessFaces | backend/modelScrpits/stress_detection.py:54-123 | the main loop's batching over the faces computes exactly the run of steps |
| MockFirebase.LookupReplace | backend/mock_firebase.py:193-207 | replacing a present key's value makes it read the new value, leaves the other keys, and keeps every key in its place |
| MockFirebase.LookupAssign | backend/mock_firebase.py:193-207 | `d[k] = v` makes `k` read `v` and leaves every other key as it was |
| MockFirebase.AssignKeepsOrder | backend/mock_firebase.py:193-207 | assigning a present key keeps the dict's order; an absent key is appended at the end |
| MockFirebase.LookupDelete | backend/mock_firebase.py:241-251 | after `del d[k]`, `k` is absent and every other key reads as before |
| MockFirebase.LookupMerge | backend/mock_firebase.py:225-235 | `a.update(b)`: keys of `b` read as in `b`, every other key as in `a` |
| MockFirebase.MergeKeepsOrder | backend/mock_firebase.py:225-235 | `a.update(b)` keeps the keys of `a` in their places; new keys come after them |
| MockFirebase.StripLeft | backend/mock_firebase.py:167 | stripping drops exactly the leading slashes |
| MockFirebase.StripRight | backend/mock_firebase.py:167 | stripping drops exactly the trailing slashes |
| MockFirebase.IndexOf | backend/mock_firebase.py:167 | the first position of a character that occurs |
| MockFirebase.Split | backend/mock_firebase.py:167 | `split('/')` never gives an empty list |
| MockFirebase.SplitAppend | backend/mock_firebase.py:167 | splitting `a/b` splits `a` and `b` independently |
| MockFirebase.SplitJoin | backend/mock_firebase.py:241-251 | joining slash-free components with `/` and splitting again gives them back |
| MockFirebase.JoinedPath | backend/mock_firebase.py:165-176 | a path written as slash-joined segments is walked component by component |
| MockFirebase.ChildPath | backend/mock_firebase.py:209-212 | `child(p)` on clean paths walks the parent's components, then those of `p` |
| MockFirebase.SetAt | backend/mock_firebase.py:193-207 | a successful `_set_value_at_path` leaves a dict at the root |
| MockFirebase.EnsureAt | backend/mock_firebase.py:165-176 | a successful `_ensure_path_exists` on a non-empty path leaves a dict at the root |
| MockFirebase.DeleteAt | backend/mock_firebase.py:241-251 | deleting below a dict leaves a dict |
| MockFirebase.RemoveAt | backend/mock_firebase.py:241-251 | `remove` on a path of at most one component changes nothing |
| MockFirebase.GetEmpty | backend/mock_firebase.py:178-191 | every path of an empty tree reads `{}` |
| MockFirebase.GetPresent | backend/mock_firebase.py:178-191 | `get` returns the node stored at a path |
| MockFirebase.GetAfterSet | backend/mock_firebase.py:193-207 | `get` after a successful `set` on the same path reads the value set |
| MockFirebase.SetKeepsOthers | backend/mock_firebase.py:193-207 | `set` leaves what `get` reads on every path that parts ways with its own |
| MockFirebase.EnsureKeepsOthers | backend/mock_firebase.py:165-176 | creating a path leaves what `get` reads on every path that parts ways with it |
| MockFirebase.EnsureReaches | backend/mock_firebase.py:165-176 | after creating a path, the node there is the one that was there, or a new `{}` |
| MockFirebase.EnsureKeepsLeaves | backend/mock_firebase.py:165-176 | creating a path never overwrites a stored leaf, wherever it is |
| MockFirebase.EnsurePresent | backend/mock_firebase.py:161-176 | a reference to a path that already exists changes nothing |
| MockFirebase.GetFindsNode | backend/mock_firebase.py:178-191 | a dict `get` returns that holds a key is a stored node, not the `{}` of a missing path |
| MockFirebase.RemoveDeletesOnlyTarget | backend/mock_firebase.py:241-251 | after `remove`, nothing is stored at the path, the parent's other keys read as before, and so does every path that parts ways with the parent's |
| MockFirebase.RemoveFound | backend/mock_firebase.py:245-249 | deleting a key the parent holds removes only that key |
| MockFirebase.RemoveMissing | backend/mock_firebase.py:245-249 | a key the parent does not hold already reads as absent |
| MockFirebase.UpdateMerges | backend/mock_firebase.py:225-235 | `update` merges a dict into a stored dict key by key, otherwise stores the argument; other paths read as before |
| MockFirebase.OrderByChild | backend/mock_firebase.py:253-257 | records the key and keeps the path and the limit |
| MockFirebase.LimitToLast | backend/mock_firebase.py:259-263 | records the limit and keeps the path and the ordering |
| MockFirebase.WithCollection | backend/mock_firebase.py:103-108 | opening a collection gives it an empty dict unless the name is taken; other top-level keys are unchanged |
| MockFirebase.AssignIn | backend/mock_firebase.py:123-127 | a successful document write leaves a dict at the root |
| MockFirebase.AssignInReads | backend/mock_firebase.py:123-127 | after a successful document write, the collection is a dict holding the data under the id |
| MockFirebase.DocumentExists | backend/mock_firebase.py:110-114 | a document taken from a collection exists, holding what it held or `{}` |
| MockFirebase.DocSetThenGet | backend/mock_firebase.py:123-143 | `set` then `get` on a document reads the data, and the document exists |
| MockFirebase.DocUpdateMerges | backend/mock_firebase.py:129-143 | `update` merges key by key into a present document, leaves it as it is when `dict.update` accepts a non-dict (the empty string), and creates an absent one with the data |
| MockFirebase.FirstStoredUser | backend/mock_firebase.py:53-74 | the first stored user with the e-mail is returned, with its uid and display name |
| MockFirebase.UnknownEmail | backend/mock_firebase.py:53-74 | an e-mail no stored user has gives the hash-derived uid and no display name |
| MockFirebase.CreatedUserIsFound | backend/mock_firebase.py:29-74 | a user created under a new uid is the one later found by its e-mail |
| MockFirebase.MockDatabase.constructor | backend/mock_firebase.py:14-19 | the tree starts with the empty top-level dicts the module creates |
| MockFirebase.MockDatabase.Reference | backend/mock_firebase.py:161-176 | creates the missing components and returns the reference; a failing walk raises and leaves the tree unchanged |
| MockFirebase.MockDatabase.Child | backend/mock_firebase.py:209-212 | a reference to `path/p`, created like any reference |
| MockFirebase.MockDatabase.Push | backend/mock_firebase.py:214-217 | a reference to a new key below this one, created like any reference |
| MockFirebase.MockDatabase.Get | backend/mock_firebase.py:237-239 | reads exactly what `_get_value_at_path` reads; ordering and limit play no part |
| MockFirebase.MockDatabase.Set | backend/mock_firebase.py:219-223 | the tree becomes exactly the one `_set_value_at_path` makes; a raise leaves it unchanged |
| MockFirebase.MockDatabase.Update | backend/mock_firebase.py:225-235 | the tree becomes exactly the merged one `UpdateMerges` describes; a raise leaves it unchanged |
| MockFirebase.MockDatabase.Remove | backend/mock_firebase.py:241-251 | the tree becomes exactly the one `RemoveDeletesOnlyTarget` describes; a raise leaves it unchanged |
| MockFirebase.MockDatabase.Collection | backend/mock_firebase.py:96-108 | the tree becomes exactly `WithCollection`'s |
| MockFirebase.MockDatabase.Document | backend/mock_firebase.py:110-114 | the tree becomes exactly the one with the document created; a raise leaves it unchanged |
| MockFirebase.MockDatabase.DocSet | backend/mock_firebase.py:123-127 | the tree becomes exactly the one with the data stored under the id; a raise leaves it unchanged |
| MockFirebase.MockDatabase.DocUpdate | backend/mock_firebase.py:129-137 | the tree becomes exactly the one `DocUpdateMerges` describes; a raise leaves it unchanged |
| MockFirebase.MockDatabase.DocGet | backend/mock_firebase.py:139-156 | returns exactly the snapshot of the document and changes nothing |
| MockFirebase.MockDatabase.CreateUser | backend/mock_firebase.py:29-51 | stores the user record under the hash-derived uid and returns that user; a raise leaves the tree unchanged |
| MockFirebase.MockDatabase.GetUserByEmail | backend/mock_firebase.py:53-74 | returns exactly the user the insertion-order scan finds, and stores nothing |
| Database.ApplyKeeps | backend/utils/database.py:42-44 | one write through a reference leaves what `get` reads on every path that parts ways with its own |
| Database.ApplyAllKeeps | backend/utils/database.py:42-47 | a run of writes to paths that part ways with `q` leaves what `get` reads at `q` |
| Database.ApplyAllOutside | backend/utils/database.py:59-67 | writes that stay under one top-level key leave every other top-level key alone |
| Database.LastWriteWins | backend/utils/database.py:42-47 | after a run that did not raise, a path reads the value last set there when no later write touches a related path |
| Database.RecordFields | backend/utils/database.py:34-39 | the pushed record holds the model, prediction, timestamp and `created_at`; the latest record the same with `updated_at` |
| Database.SavedPredictionReadable | backend/utils/database.py:20-49 | after `save_prediction`, the pushed key holds the record, stamped now in ms when no timestamp was given, and `latest_predictions/{model}` holds the same prediction |
| Database.PushedPredictionStored | backend/utils/database.py:42-44 | the pushed key holds the record |
| Database.LatestPredictionStored | backend/utils/database.py:51-67 | `update_latest_prediction` stores its record under `latest_predictions/{model}` |
| Database.LatestPredictionKeeps | backend/utils/database.py:51-67 | `update_latest_prediction` leaves every path outside `user_status` alone |
| Database.WithIdFields | backend/utils/database.py:103-106 | `{**alert_data, 'alert_id': key}` reads as the alert plus its key |
| Database.SavedAlertReadable | backend/utils/database.py:69-108 | after `save_alert`, the pushed key holds the alert and `latest_alert` holds it plus `alert_id` |
| Database.PushedAlertStored | backend/utils/database.py:99-100 | the pushed key holds the alert |
| Database.LatestAlertStored | backend/utils/database.py:103-106 | `latest_alert` holds the alert plus its key |
| Database.LatestAlertKeeps | backend/utils/database.py:103-106 | the `latest_alert` write leaves every path outside `user_status` alone |
| Database.AlertDefaults | backend/utils/database.py:82-96 | an alert defaults to level "warning", data `{}`, unread, stamped now, with its type and message |
| Database.MonitoringStatusMerged | backend/utils/database.py:197-209 | the status node gains `is_monitoring` and both update times and keeps its other keys |
| Database.KeepRecentExactly | backend/utils/database.py:130-137 | the filter keeps exactly the predictions stamped at or after the cutoff, a missing stamp counting as 0, each tagged with its key |
| Database.TaggedCarriesId | backend/utils/database.py:134-136 | each kept prediction carries its key as `id` and otherwise reads as stored |
| Database.NothingStoredNothingRecent | backend/utils/database.py:110-137 | with nothing stored for the model, the query creates the path and returns no predictions |
| Database.SecondStampsNeverRecent | backend/utils/database.py:122 | as written: a stress prediction stamped in seconds is never within the last five minutes, whenever it is read |
| Database.MillisecondStampsRecent | backend/utils/database.py:122-137 | a stress prediction stamped in milliseconds within the last five minutes is returned |
| Database.AverageCases | backend/utils/database.py:139-195 | no average without recent predictions or for a model other than the four it knows; otherwise the average counts every sample |
| Database.PresenceSum | backend/utils/database.py:155-161 | the sum of the presence flags is the number of samples marked present |
| Database.PresenceIsShare | backend/utils/database.py:155-161 | the average presence is the share of samples marked present, between 0 and 1 |
| Database.PresenceMean | backend/utils/database.py:155-161 | the mean of the presence flags is the present count over the sample count |
| Database.DatabaseManager.constructor | backend/utils/database.py:15-18 | the manager keeps its user and its store |
| Database.DatabaseManager.UpdateLatestPrediction | backend/utils/database.py:51-67 | the store ends exactly as the run of `update_latest_prediction`'s writes leaves it, with its exception |
| Database.DatabaseManager.PushPrediction | backend/utils/database.py:42-44 | the store ends exactly as the push writes leave it |
| Database.DatabaseManager.SavePrediction | backend/utils/database.py:20-49 | the store ends exactly as `save_prediction`'s writes leave it, which `SavedPredictionReadable` reads back; a success returns the pushed key |
| Database.DatabaseManager.PushAlert | backend/utils/database.py:99-100 | the store ends exactly as the alert push leaves it |
| Database.DatabaseManager.SaveAlert | backend/utils/database.py:69-108 | the store ends exactly as `save_alert`'s writes leave it, which `SavedAlertReadable` reads back; a success returns the pushed key |
| Database.DatabaseManager.GetRecentPredictions | backend/utils/database.py:110-137 | the store and the result are exactly the query's, which `KeepRecentExactly` describes |
| Database.DatabaseManager.CalculatePredictionAverage | backend/utils/database.py:139-195 | the result is the average of the recent predictions `AverageCases` describes, or the query's exception |
| Database.DatabaseManager.UpdateUserMonitoringStatus | backend/utils/database.py:197-209 | the store ends exactly as the status update leaves it, which `MonitoringStatusMerged` reads back |
| Database.DatabaseManager.GetUserMonitoringStatus | backend/utils/database.py:211-217 | returns what the status node holds, `{}` when it is missing, and changes nothing |
| Database.OpenReferences | backend/utils/database.py:15-18 | the store ends exactly as creating the three references in order leaves it |
| Database.Open | backend/utils/database.py:15-18 | a manager is made exactly when creating the three references does not raise; it keeps the user and the store |
| Calendar.DaysInMonth | backend/reports_api.py:556-558 | every month the monthly walk crosses has 28 to 31 days |
| Calendar.Weekday | backend/reports_api.py:58 | `weekday()` is a day index from 0 (Monday) to 6 |
| Calendar.PrevDay | backend/reports_api.py:59 | one day back is a valid date whenever it exists |
| Calendar.DaysBeforeYearFormula | backend/reports_api.py:58-59 | the ordinal's year part is the closed form `y*365 + y//4 - y//100 + y//400` of the `datetime` module |
| Calendar.DaysBeforeMonthTable | backend/reports_api.py:58-59 | the ordinal's month part is the `datetime` module's month table plus the leap day after February |
| Calendar.EarlierOrdinal | backend/reports_api.py:543 | a strictly earlier date has a strictly smaller ordinal |
| Calendar.LeOrdinal | backend/reports_api.py:543 | `current <= end_date` holds exactly when the ordinals compare the same way, and equal ordinals mean equal dates |
| Calendar.OrdinalEnds | backend/reports_api.py:556-558 | 0001-01-01 alone has ordinal 1 and 9999-12-31 alone has the largest |
| Calendar.NextDayOrdinal | backend/reports_api.py:545 | `+ timedelta(days=1)` raises only on 9999-12-31 and otherwise moves to the next ordinal and the next weekday |
| Calendar.PrevDayOrdinal | backend/reports_api.py:59 | `- timedelta(days=1)` raises only on 0001-01-01 and otherwise moves to the previous ordinal |
| Calendar.MinusDaysOrdinal | backend/reports_api.py:59 | `- timedelta(days=n)` succeeds exactly when `n` is below the ordinal, and then moves the ordinal back by `n` |
| Calendar.AtMostMax | backend/reports_api.py:556-558 | no date comes after 9999-12-31 |
| Reports.YearField | backend/reports_api.py:45 | `%Y` reads a year from 0 to 9999 |
| Reports.MonthField | backend/reports_api.py:45 | `%m` reads a month from 1 to 12 |
| Reports.DayField | backend/reports_api.py:45 | `%d` reads a day from 1 to 31 |
| Reports.ParseIso | backend/reports_api.py:45 | `strptime(s, '%Y-%m-%d')` gives only dates that exist |
| Reports.ParseDateParam | backend/reports_api.py:39-48 | `parse_date_param` always gives a valid date, today's for a missing or empty parameter |
| Reports.ParseIsoFormat | backend/reports_api.py:39-48 | every date written as `YYYY-MM-DD` is parsed back to itself, whatever today is |
| Reports.ParseIsoShortForms | backend/reports_api.py:45 | one-digit and space-padded fields are accepted; 29 February of a common year and month 13 are refused |
| Reports.WeekStart | backend/reports_api.py:58-59 | the week's start is `weekday()` days back and never overflows |
| Reports.DateRange | backend/reports_api.py:50-67 | every range ends on the reference date and starts on or before it |
| Reports.WeekStartIsMonday | backend/reports_api.py:56-59 | the weekly range starts on a Monday at most six days back, the latest Monday on or before the reference date |
| Reports.DateRangeStarts | backend/reports_api.py:50-67 | monthly starts on the first of the month, weekly on the week's Monday, daily and any other timeframe on the reference date |
| Reports.HourLabelAt | backend/reports_api.py:535-538 | `f"{hour:02d}:00"` is the hour's entry among the nine working-hour labels |
| Reports.DateSpan | backend/reports_api.py:555-558 | every date the monthly walk visits is a valid date |
| Reports.DayIndex | backend/reports_api.py:549 | `days.index(name)` is the position that holds the name |
| Reports.DateSpanDays | backend/reports_api.py:555-558 | the walk visits every day from start to end once, in order, and none when start is after end |
| Reports.MonthLabelsPerDay | backend/reports_api.py:553-558 | the monthly labels are one per day of the range, the first naming the start and the last the end |
| Reports.WeekLabelsFollowDates | backend/reports_api.py:539-552 | the weekly labels are seven day names, each the day after the one before, and those of the days in the range name those days |
| Reports.WeekLabelsCycle | backend/reports_api.py:546-552 | the seven weekly labels run round the week |
| Reports.WeekLabelsNameDays | backend/reports_api.py:541-545 | the weekly labels of the days walked are those days' names |
| Reports.DailyLabels | backend/reports_api.py:535-538 | the daily labels are the hours 09:00 to 17:00 |
| Reports.WeeklyLabels | backend/reports_api.py:539-552 | the weekly branch gives the labels `WeekLabelsFollowDates` describes, or the overflow |
| Reports.WeekWalk | backend/reports_api.py:541-545 | the walk names consecutive days from the start's, none exactly when the range is empty, and fails only where the labels overflow |
| Reports.FillWeek | backend/reports_api.py:547-552 | the fill completes seven names round the week after the last one walked, or after the start's weekday when none was |
| Reports.MonthlyLabels | backend/reports_api.py:553-558 | the monthly branch gives the labels `MonthLabelsPerDay` describes, or the overflow |
| Reports.GenerateTimeLabels | backend/reports_api.py:531-563 | `generate_time_labels` gives the daily, weekly or monthly labels, any other timeframe taking the monthly branch |
| Reports.Fields | backend/reports_api.py:300-305 | every chart carries at least two series |
| Reports.SortByStamp | backend/reports_api.py:309 | `data.sort(key=timestamp)` leaves the records ordered by timestamp, a missing one counting as 0, and a permutation of what they were |
| Reports.InsertAt | backend/reports_api.py:309 | one insertion step extends the sorted prefix by one and permutes the array |
| Reports.ChartShape | backend/reports_api.py:311-327 | the chart has one label and one value per series for each record, in the records' order, so the fallback labels never apply once there is a record |
| Reports.ChartRecords | backend/reports_api.py:311-327 | the loop over the records builds the chart `ChartShape` describes |
| Reports.EmptyReport | backend/reports_api.py:293-298 | no records give the empty chart `EmptyChartZeros` describes |
| Reports.ProcessReport | backend/reports_api.py:291-335 | `process_*_data` sorts the records in place, gives the empty chart for no records and otherwise the chart of the sorted records |
| Reports.RescaleSumsToHundred | backend/reports_api.py:509-513 | rescaled hydration percentages add up to 100 when their total is positive, keep their ratio, and are left alone at 100 or without a positive total |
| Reports.HydrationChartSums | backend/reports_api.py:453-528 | in a hydration chart the two percentages of every record with a positive total add up to 100 |
| Reports.EmptyChartZeros | backend/reports_api.py:340-356 | the chart of no records has a zero per label in every series, and labels only for stress and hydration with a range, those being the range's time labels |
| Reports.SamplePosture | backend/reports_api.py:771-774 | each sample's good share is its draw and the two shares add up to 100 |
| Reports.SampleStress | backend/reports_api.py:823-832 | each sample's low is its draw, medium is cut back only when it would leave high below 0, and the three add up to 100 |
| Reports.SampleCvs | backend/reports_api.py:882-891 | each sample's normal is its draw, low is cut back only when it would leave high below 0, and the three add up to 100 |
| Reports.SampleHydration | backend/reports_api.py:941-946 | each sample's normal share is its draw and the two shares add up to 100 |

## Left out

- The Flask routes and their request parsing (`get_user_id_from_request`, every `@*_bp.route` handler), except the refusal logic of the two `/webcam/stop` routes, which `PostureApi.StopWebcamRoute` and `CvsApi.StopWebcamRoute` model: they are HTTP plumbing around the managers.
- `backend/hydration_api.py`: it only forwards to `ScriptManager`, and its manager's `cleanup` does nothing.
- `backend/app.py`, `backend/server.py` and `backend/main.py`: application wiring with no logic of their own.
- Processes, sockets, the camera and sleeping are not performed. Whether a process is alive is the set `live`, a launch outcome and "exits within the grace period" are parameters, a send is a success flag, a socket read is the chunk it delivers, and the socket probe `_check_webcam_server_running` is the boolean `probe`.
- Threads are not modelled: the accept thread of the webcam server, the status and saver threads of `BlinkDetector`, and interleavings between requests. The process lock is a held flag, used only to show that the two nested acquisitions block.
- Vision and machine learning (cv2, dlib, mediapipe, keras, joblib) are abstracted: an eye is open or closed, a mouth's dryness score is a number, a posture model's class is a number, an emotion model's class is an index. The pickled frame payload is opaque bytes.
- `backend/modelScrpits/webcam_server.py`: a thread-per-client copy of the same encoder.
- `backend/modelScrpits/posture_detection.py`: its frame loop is only reached after an accept loop that never ends, and it repeats the framing modelled for the other workers.
- `backend/models.py`: mock predictions drawn at random.
- `backend/firebase_config.py`: `initialize_firebase` loads credentials and starts `firebase_admin`, and `get_db_reference` (lines 45-47) gives `DatabaseManager` a `firebase_admin` reference. The Firebase service is not modelled: `DatabaseManager` runs over the mock's tree (`MockFirebase`) in its place, so server-side query ordering, concurrent writers and security rules are not captured.
- Database.DatabaseManager.PushPrediction: `push().key` (`backend/utils/database.py:43`, and `:99` for `PushAlert`) is taken to be a fresh key, passed in as `key`, as Firebase's `push()` gives. The mock's `push()` (`backend/mock_firebase.py:214-217`) returns a reference without a `key` attribute, so run against the mock these calls would raise `AttributeError`; the model does not follow that.
- Database.DatabaseManager.GetRecentPredictions: the `limit_to_last(limit)` cap (`backend/utils/database.py:127`) is dropped, as the mock store drops it; every stored record inside the time window is returned in stored order, where Firebase would return at most the `limit` records with the largest `timestamp`. `limit` is accepted and unused.
- Database.DatabaseManager.SavePrediction: one `isoNow` is used for `created_at` (`backend/utils/database.py:38`) and for the `updated_at` of the latest record (`:61`); the source reads `datetime.now()` once for each, so the two stamps may differ by the time between the reads.
- Reports.ParseIso: a digit is one of `0`-`9`; the `\d` of `strptime`'s patterns also matches other Unicode decimal digits (Arabic-Indic, Devanagari and so on), which the model rejects as a malformed date.
- Database.AverageCases: a stored string is a `TypeError` in the model (`NumberOf`); `float()` at `backend/utils/database.py:181` and `:189` (the `attention` and `posture` means) also accepts a numeric string such as `"0.5"`, so where the source averages such records the model raises. Parsing numbers from text is left out; the `present` flags of `face_recognition` go through `sum()`, which refuses strings as the model does.
- The main function of `cvs_detection.py`: it wires the detector to the socket and threads; the detector and `receive_frame` are modelled.
- Floating point: percentages and averages are exact reals, so a share lying exactly on the `> 60` boundary may compare differently under IEEE doubles.
- Reports.ChartRecords: the chart values are the stored values, not `round(v, 1)` of them; rounding is left out with the rest of floating point.
- Reports.SortByStamp: does not state that the sort is stable (Python's `list.sort` keeps equal stamps in their order); only sortedness and the permutation are proved.
- Database.AverageCases: for the `emotion`, `attention` and `posture` models only the sample count is stated, not the means of their fields; the `face_recognition` presence share is stated in full.
- `round()` of the stress values and of the hydration percentages is not applied; values are kept exact.
- `datetime.now()`, `time.time()` and `datetime.fromtimestamp` are parameters: `now`/`nowMs`, `today`, and a function from a millisecond stamp to a local date and time. The server's time zone is therefore a parameter too.
- The two clock reads of the hydration loop (`hydration_detection.py:200` and `204`) are taken as one reading per iteration.
- The random draws of `generate_sample_*_data` are parameters; the model states what holds for every draw inside the `randint` ranges.
- The uid of a new `MockUser`, built from Python's randomised `hash()`, is the parameter `uidOf`; push keys are a parameter, assumed fresh.
- Dict aliasing: a value `get` returns is a copy in the model, whereas Python hands out the stored dict itself.
- Timestamps past 9999-12-31 raise `OverflowError` in `datetime`; the model returns `None` for them and does not follow the exception further.
- The `except Exception: return False, str(e)` paths of the managers: the exception text comes from code that is not modelled; the failures whose cause the model names (a failed launch, a process that died during start-up) are modelled as replies, and an exception inside a `try` is a failure reply with an unspecified message.
- The stress worker's unpacking of a frame prefix shorter than 8 bytes is not reached in the model: a closed stream before a full prefix ends the loop, as the other workers do.
- The stress worker's flush stamp is the time of the face that closes the minute.
- `PostureApi.PostureMonitoringManager.Cleanup` terminates the webcam server even when the stress manager still uses it; the model states this and does not treat it as a defect.
- WebcamServerModel.WebcamServer.StreamWebcam: states that a camera that does not open stops the server, and otherwise that each client's delivered stream only grows and clients are only dropped; the per-frame delivery and pruning are stated exactly by `WebcamServerModel.WebcamServer.BroadcastFrame`.
- WebcamServerModel.WebcamServer.Start: states only the bind failure and that streams only grow, for the same reason.

## Findings

| source | as written | input that shows it | evidently intended | confidence | as-written member | corrected member |
|---|---|---|---|---|---|---|
| backend/utils/script_manager.py:206-227 | `start_monitoring` holds the non-reentrant `process_lock` (line 42) and calls `start_webcam_server`, which takes the same lock again at line 78 | no server answering on the port, type `posture`, no live process for the key: the call never returns | the webcam server is started without re-taking the lock | not executed | ScriptManagerModel.StartMonitoringAsWrittenBlocks | ScriptManagerModel.ScriptManager.StartMonitoring |
| backend/utils/script_manager.py:424-448 | `cleanup` holds the lock and calls `stop_monitoring` (lock at line 318) and `stop_webcam_server` (lock at line 142) | one process registered under a `<type>_<user>` key of a known type, or any server reference: `cleanup` never returns | every process and the server are stopped, leaving nothing registered | not executed | ScriptManagerModel.CleanupAsWrittenBlocks | ScriptManagerModel.ScriptManager.Cleanup |
| backend/modelScrpits/cvs_detection.py:370-400 | `receive_frame` keeps its buffer in a local variable, so bytes read past one frame are dropped | the server's two frames arrive in one `recv` chunk: the second frame is lost and the next call reads a closed stream | leftover bytes are kept for the next frame, as the other workers do | not executed | FrameReceive.ReceiveFrameLosesCoalescedFrame | FrameReceive.BufferedReaderKeepsCoalescedFrame |
| backend/cvs_api.py:158-182 | the script is started without `stderr=PIPE`, so `stderr.decode()` at line 174 raises and the dead entry is never deleted | a script that exits within the 2 s wait: the reply is `'NoneType' object has no attribute 'decode'` and the user stays registered | a failed start reports the failure and removes the entry | not executed | CvsApi.CvsFailedStartKeepsDeadEntry | CvsApi.StartCvsOutcome |
| backend/posture_api.py:108-111 | after its own reference is set to `None`, the stress manager's reference is cleared only if it equals that `None` | both managers refer to the same running server and no stress process runs: after the stop the stress manager still refers to the terminated server | the stress manager's reference to the same server is cleared | not executed | PostureApi.PostureStopLeavesStaleStressReference | PostureApi.PostureStopClearsSharedReference |
| backend/cvs_api.py:120-125 | the posture and stress references are compared with the own reference after it was set to `None` | all three managers share one running server and no posture or stress process runs: after the stop the other two still refer to it | references to the stopped server are cleared in every manager | not executed | CvsApi.CvsStopLeavesStaleReferences | CvsApi.CvsStopClearsSharedReferences |
| backend/utils/script_manager.py:81-90 | with the reference set to the placeholder `True`, `not self.webcam_process` is false and `True.poll()` raises `AttributeError` | a second `start_webcam_server` while the server answers on the port and the reference is the placeholder: the call fails | a placeholder reference counts as a running server and the call succeeds | not executed | ScriptManagerModel.SentinelProbeFailsAsWritten | ScriptManagerModel.WebcamStartBody |
| backend/modelScrpits/stress_detection.py:103-118 | stress predictions are saved with `time.time()` in seconds, while `get_recent_predictions` (backend/utils/database.py:122) compares with a cutoff in milliseconds | a stress prediction saved at any time after 1970-01-01 00:05:00.301: it is never among the recent predictions | timestamps are stored in milliseconds, as `save_prediction` does when given none | not executed | Database.SecondStampsNeverRecent | Database.MillisecondStampsRecent |
| backend/modelScrpits/hydration_detection.py:343 | the summary is saved through `save_monitoring_summary`, which `DatabaseManager` does not define, so the alert below it is never reached | a run whose every sample reads "Dry Lips": the call raises before the dehydration alert is saved | the summary is saved and an alert follows when more than 60 % of the samples are dry | not executed | HydrationWorker.DehydrationAlertLostAsWritten | HydrationWorker.RunAlertsOnMostlyDry |
| backend/modelScrpits/stress_detection.py:20-25 | `sys.argv[2]` is read after checking only that there are at least two arguments, and `ScriptManager` (backend/utils/script_manager.py:243-245) passes no report id when it has none | stress monitoring started without a progress report id: the worker dies with `IndexError` | the report id is optional, `None` when absent, as in `hydration_detection.py` | not executed | StressWorker.StressWorkerDiesWithoutReportId | StressWorker.StressArgsAgreeWhenComplete |

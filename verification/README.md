# The Qt Debug Bridge protocol, verified

A model of the protocol with which the host side (`qdb/server`) and the device
side (`qdbd`) of the Qt Debug Bridge multiplex streams over one USB connection,
of the message format and USB framing below it, and of the allocation of
subnets for the network of a device. Everything is proved with Dafny 4.11:

    dafny verify dfyconfig.toml

## What is modelled

| file | part of the system |
|---|---|
| `Protocol.dfy`, `Octets.dfy`, `Streams.dfy` | messages and queues of messages; numbers and constants as bytes; how a packet is cut into Write payloads and put together again |
| `HostMachine.dfy`, `DeviceMachine.dfy` | `Connection` and `Server` as functions of their state: every message handler and every call of the application |
| `HostLaws.dfy`, `DeviceLaws.dfy` | what these functions do, told by the outcome alone: for every state and message, what is sent byte for byte, what stays queued and what is forgotten |
| `StreamObjects.dfy`, `HostSide.dfy`, `DeviceSide.dfy` | `Stream`, `Connection` and `Server` as classes, method by method, proved equal to those functions |
| `Joint.dfy` | host and device joined by two FIFO wires; a step delivers one message or makes one call of the application; runs are arbitrary sequences of steps |
| `Session.dfy`, `HostSteps.dfy`, `HostReceives.dfy`, `DeviceReceives.dfy` | what holds between both ends during a session, and why every step keeps it |
| `Sync.dfy`, `SyncSteps.dfy` | the invariant over whole runs, with crossed handshakes and resets |
| `Theorems.dfy`, `WithoutClose.dfy` | resynchronisation, absence of deadlock, stop-and-wait, the device's window, end-to-end delivery, echo |
| `Convergence.dfy`, `Reconnection.dfy` | every series of deliveries ends, whatever the executors answer, and ends in a session |
| `Grammar.dfy`, `Identity.dfy`, `IdentityHost.dfy`, `IdentityRuns.dfy` | ids over whole runs and the history of each stream |
| `DoomedSessions.dfy`, `Arrivals.dfy` | sessions that a Connect under way will reset; the assertions of `receiveMessage` in every state of every run |
| `Witnesses.dfy` | runs from power-on that reach what the theorems do not exclude |
| `Dispatch.dfy` | each end alone, with a peer that sends any supported messages |
| `Wire.dfy`, `WireLaws.dfy`, `WireObjects.dfy`, `Traffic.dfy` | the binary message format byte for byte, the USB transfers, what is read from bytes that nobody has sent, and that the transfers carry whatever the protocol sends |
| `Subnets.dfy`, `SubnetPools.dfy`, `Reservations.dfy` | overlap of subnets, first fit, the pool, and threads that reserve and release in any order |

The run theorems start from any state an earlier host may have left behind:
an unconnected host, a device in any state that its own invariant allows
(`DeviceMachine.DeviceOk`), and any supported messages on both wires
(`Joint.Start`). Only the theorems about ids, histories and all arriving
Writes start from power-on (`Joint.POWER_ON`), since they speak of everything
ever sent.

Queues, wires and tables are values inside the machines; the fields `log`,
`raw`, `got`, `frags`, `wrote`, `minted`, `released` and `fault` are history
that the code does not have. `fault` records that an assertion of
`processQueue` has failed; the state is then what a release build makes of it.

## Assumptions

- `QdbTransport::send` succeeds, and a USB transfer is complete when it is done.
- The device's Connect carries version 1, as qdbd/server.cpp:199-203 sends it, and no message reaches a `qFatal`.
- Stream ids are not bounded by 2^32; the theorem that crosses into the wire format assumes that the ids on the wires are below it.
- In the run theorems the application connects when nothing is queued, calls `createStream` only when not disconnected and with a tag that fits a message, writes packets that are not empty, and does not write to a stream after `requestClose`.
- A handler of a signal runs as a step of its own, after the handler that emitted the signal; only what an executor writes when it receives a packet is part of the handling of that message. What an executor other than echo answers is a parameter.
- The device process is not restarted during a run.

## What the proofs found

- `Connection::close()` while the handshake is pending (qdb/server/connection.cpp:82-85) keeps queue and requests. The next `connect()` then sends the queued Open instead of the Connect and trips the assertion at line 265. `HostMachine.ConnectFaultsIff` gives the exact condition and `HostMachine.ConnectAfterCloseFaults` a run.
- A Connect reply of another version trips the same assertion exactly when requests are already queued (`HostMachine.HandleFaultsIff`); `HostMachine.OtherVersionFaults` is a run.
- The host does not loop after it has sent a Close (connection.cpp:273-276), so it can stay connected, idle and with messages queued until something else happens; `HostMachine.StallsIff` says exactly when, and `Witnesses.HostStalls` is a run from power-on that ends so, with nothing in flight. The device does loop. Absence of deadlock is therefore stated without the host's queue, and the host's queue is shown to drain when nothing is closed (`WithoutClose.EchoesEverything`).
- A Close that releases a waiting device lets its next Write overtake the acknowledgment of the previous one, so the device's window is at most one plus the number of such Closes (`Theorems.DeviceWindow`); `Witnesses.TwoUnansweredWrites` is a run from power-on that reaches the bound of two.
- The two-sided test of `findUnusedSubnet` is exact except for two subnets of which neither prefix length is known (`Subnets.OverlapsIffIntersect`).
- `SubnetPool::reserve` compares for equality only, so a search can be given a pool subnet that lies in a subnet reserved from outside the pool. `Reservations.SharedAddresses` says exactly when two live reservations share an address, and `Reservations.OverlapReached` is a run.

## Model

| member | source | states |
|---|---|---|
| Streams.RoundTrip | libqdb/stream.cpp:36-130 | whatever packets are written, their fragments are reassembled into exactly these packets, in order, and the receiver ends idle; no fragment is empty or larger than 16368 bytes; all assertions of the receiver hold |
| Streams.PrefixIsIntact | libqdb/stream.cpp:88-130 | after any part of the fragments has arrived, the packets emitted are a prefix of those written, and the next fragment meets the receiver's assertions |
| Streams.FragmentsAreExact | libqdb/stream.cpp:59-64 | the fragments of a buffer of n bytes are together the buffer; there are (n + 16367) / 16368 of them, every one but the last has exactly 16368 bytes, and none is empty |
| Streams.FragmentSizes | libqdb/stream.cpp:60-63 | each fragment is the part of the buffer at its place, in steps of 16368 bytes |
| Streams.FeedOutcome | libqdb/stream.cpp:94-129 | for every payload, malformed ones included: nothing received is lost, and a packet is emitted if and only if at least the size that its first four bytes announce, as a signed number, has arrived; the assertions hold if and only if no more than that has arrived and a first payload has its four bytes |
| Streams.FeedOne | libqdb/stream.cpp:55-66 | one packet's fragments give back that packet, and the first of them holds the whole length prefix |
| Streams.FeedAllAppend | libqdb/stream.cpp:88-130 | reassembly can be interrupted between any two payloads |
| StreamObjects.WrapPacket | libqdb/stream.cpp:36-42 | the buffer is the packet behind its big-endian length |
| StreamObjects.Stream.constructor | libqdb/stream.cpp:44-53 | a new stream is idle |
| StreamObjects.Stream.ReceiveMessage | libqdb/stream.cpp:88-130 | the method updates the reassembly state and emits a packet exactly as the function that the round trip is about |
| HostSide.Connection.constructor | qdb/server/connection.cpp:52-59 | a new connection is disconnected and empty, with id 1 next |
| HostSide.Connection.Connect | qdb/server/connection.cpp:66-75 | from Disconnected, the new state is that of the machine; an assertion fails if and only if something was still queued |
| HostSide.Connection.Close | qdb/server/connection.cpp:77-101 | in whatever order the table yields the streams, the new state is that of `CloseAll` for that order |
| HostSide.Connection.CloseStreams | qdb/server/connection.cpp:94-98 | the loop ends, sends one Close per stream in some order of the open streams and empties the table |
| HostSide.Connection.CreateStream | qdb/server/connection.cpp:108-113 | hands out the next id, registers the request and queues or sends the Open; the invariant holds |
| HostSide.Connection.EnqueueMessage | qdb/server/connection.cpp:115-121 | appends and processes the queue once |
| HostSide.Connection.HandleMessage | qdb/server/connection.cpp:123-214 | for every state and every message but Open, the new state is that of the machine; the invariant holds if and only if the message is not the one of `TripsAssertion` |
| HostSide.Connection.DispatchConnected | qdb/server/connection.cpp:158-211 | the cases Connected and Waiting |
| HostSide.Connection.Acknowledge | qdb/server/connection.cpp:216-227 | the Ok bypasses the queue, whatever the host waits for |
| HostSide.Connection.ProcessQueue | qdb/server/connection.cpp:229-286 | for every state, sends at most one message and changes state as the machine does; records whether an assertion fails |
| HostSide.Connection.ResetConnection | qdb/server/connection.cpp:288-303 | queue, requests and streams are gone; reconnects if asked to |
| HostSide.Connection.CloseStream | qdb/server/connection.cpp:305-320 | one stream leaves the table and its messages leave the queue |
| HostSide.Connection.FinishCreateStream | qdb/server/connection.cpp:322-327 | the request becomes a stream under the pair of ids |
| HostSide.Connection.HandleRefuse | qdb/server/connection.cpp:329-353 | awaits a new reply if and only if the payload starts with 00 00 00 01, and is disconnected otherwise |
| HostSide.Connection.HandleWrite | qdb/server/connection.cpp:355-364 | a Write to an unknown stream is answered with a queued Close, any other is acknowledged at once and received |
| HostSide.Connection.WritePacket | libqdb/stream.cpp:55-66 | if the stream is open whenever the loop uses it, the state after all fragments have been enqueued is that of the machine |
| HostSide.Connection.WriteFragments | libqdb/stream.cpp:59-64 | the loop enqueues exactly the fragments of the buffer, one by one |
| Sync.WriteStaysOpen | libqdb/stream.cpp:55-66 | a write never meets a closed stream unless its Close is queued on a host that has stalled |
| HostSide.Connection.RequestClose | libqdb/stream.cpp:78-81 | queues a Close for the stream's pair of ids |
| HostLaws.HandleOutcome | qdb/server/connection.cpp:123-163 | for every state and every message but Open, each as an if-and-only-if: the host forgets everything, sends one Connect and waits (on anything but Invalid when disconnected; on anything but Connect, Invalid and a Refuse for another reason when it awaits the reply; on a Connect or a Refuse that starts with 00 00 00 01 in a session); it forgets everything and sends nothing (on Invalid, on any other Refuse, and on a reply of another version that finds nothing queued); a disconnected host ignores exactly Invalid; everything else leaves it in a session |
| HostLaws.RefuseOutcome | qdb/server/connection.cpp:329-353 | a Refuse that starts with 00 00 00 01 makes the host send one Connect and wait, any other payload ends the connection with nothing sent |
| HostLaws.ReplyOpens | qdb/server/connection.cpp:149-151 | a reply that starts with 00 00 00 01 opens the connection and sends the first request, if there is one |
| HostLaws.OtherVersionOutcome | qdb/server/connection.cpp:152-153 | any other reply disconnects the host with nothing sent, or trips an assertion if something is queued |
| HostLaws.FaultsIff | qdb/server/connection.cpp:245-276 | in any state, an assertion of processQueue fails if and only if the head of the queue is not a Connect on a disconnected host, or not an Open, a Write or a Close on a connected one |
| HostLaws.NextOutcome | qdb/server/connection.cpp:229-286 | in a session, one message leaves if the host is Connected and has one queued: after an Open or a Write it waits, after a Close the stream and what was queued for it are gone |
| HostLaws.WriteOutcome | qdb/server/connection.cpp:362-363 | a Write to an open stream is acknowledged under its pair of ids ahead of everything queued, and its payload goes to that stream |
| HostLaws.StrayWriteOutcome | qdb/server/connection.cpp:357-361 | a Write to an unknown stream is answered with one Close for its pair of ids, at once on an idle host and behind the queue on a waiting one |
| HostLaws.CloseOutcome | qdb/server/connection.cpp:305-320 | a Close takes away its stream and what is queued for it, is not answered, and does not end a wait |
| HostLaws.OkOutcome | qdb/server/connection.cpp:197-204 | an Ok ends the wait, so that the next message leaves, and grants the request that it is for; an Ok for which nobody waits is ignored |
| HostLaws.CreateStreamOutcome | qdb/server/connection.cpp:108-113 | the Open for the next id leaves at once on an idle host and is queued otherwise; an assertion fails if and only if the host is disconnected |
| HostLaws.RequestCloseOutcome | libqdb/stream.cpp:78-81 | the Close leaves at once on an idle host, and takes the stream with it; on a waiting host it is queued and the stream stays |
| HostLaws.CloseBeforeReply | qdb/server/connection.cpp:79-85 | close() before the handshake is complete disconnects and keeps everything that is queued |
| HostLaws.WritePacketWhenIdle | libqdb/stream.cpp:55-66 | a packet of n bytes written on an idle host is exactly (n + 4 + 16367) / 16368 Writes, of which the first leaves and the others are queued; each is the part of the length and the packet at its place |
| HostLaws.WritePacketWhileWaiting | libqdb/stream.cpp:55-66 | on a waiting host all of them are queued behind everything else, and nothing leaves |
| Protocol.WithoutHostAppend | qdb/server/connection.cpp:313-318 | the queue keeps its order, and loses exactly the messages of the host stream |
| HostMachine.HandleOk | qdb/server/connection.cpp:123-214 | whatever supported message arrives in whatever state, the host's invariant holds afterwards and no assertion fails |
| HostMachine.HandleFaultsIff | qdb/server/connection.cpp:150-153 | handling a message trips an assertion of processQueue if and only if it is a Connect of another version that finds requests queued |
| HostMachine.OtherVersionFaults | qdb/server/connection.cpp:150-153 | connect, createStream and a reply of version 2 are a run that trips it |
| HostMachine.ConnectFaultsIff | qdb/server/connection.cpp:66-75 | connect() trips an assertion of processQueue if and only if something is still queued |
| HostMachine.ConnectAfterCloseFaults | qdb/server/connection.cpp:82-85 | connect, createStream, close, connect is a run that trips it |
| HostMachine.StallsIff | qdb/server/connection.cpp:273-276 | after processQueue the host is able to send and has messages queued if and only if it has sent a Close and a message of another stream was behind it |
| HostMachine.ResetOk | qdb/server/connection.cpp:288-303 | a reset leaves nothing behind, keeps the id counter, and its Connect leaves at once |
| HostMachine.HeadAllowed | qdb/server/connection.cpp:258-276 | what processQueue would send next is allowed in the host's state |
| HostMachine.CloseAllIsExact | qdb/server/connection.cpp:77-101 | close() ends Disconnected with queue, requests and streams empty, and what it sends is exactly one Close for each open stream |
| HostMachine.ClosesExactly | qdb/server/connection.cpp:94-98 | for every order of the streams, the Closes are distinct and as many as the streams |
| DeviceSide.Server.constructor | qdbd/server.cpp:45-51 | a new server is disconnected and empty, with id 1 next |
| DeviceSide.Server.HandleMessage | qdbd/server.cpp:55-127 | for every state and every supported message, enqueueing and draining step by step ends in the state of the machine; the invariant holds |
| DeviceSide.Server.DispatchConnected | qdbd/server.cpp:69-125 | the cases Connected and Waiting |
| DeviceSide.Server.EnqueueMessage | qdbd/server.cpp:129-135 | appends and drains |
| DeviceSide.Server.ProcessQueue | qdbd/server.cpp:137-187 | the recursion terminates and, if no assertion of the source fails, equals the machine's draining |
| DeviceSide.Server.HandleConnect | qdbd/server.cpp:189-204 | the device is reset; it sends a Connect of version 1 if the payload starts with 00 00 00 01, and otherwise the Refuse 00 00 00 02 00 00 00 01 |
| DeviceSide.Server.HandleOpen | qdbd/server.cpp:206-212 | a new device id, an Ok for it, a stream and its executor |
| DeviceSide.Server.AddStream | qdbd/server.cpp:210-211 | the new id gets a stream and the executor that `DeviceLaws.ExecutorNamed` describes |
| DeviceSide.Server.Refuse | qdbd/server.cpp:214-226 | everything is cleared and the Refuse leaves at once |
| DeviceSide.Server.ResetServer | qdbd/server.cpp:228-233 | queue, executors and streams are gone |
| DeviceSide.Server.HandleWrite | qdbd/server.cpp:235-244 | a Write to an unknown stream is answered with a Close; any other with an Ok, followed by the fragments of what the executor writes, whatever that is |
| DeviceSide.Server.WritePacket | qdbd/echoexecutor.cpp:45-49 | an executor's answer is queued behind everything else, fragment by fragment |
| DeviceSide.Server.WriteFragments | libqdb/stream.cpp:59-64 | enqueueing and draining fragment by fragment equals queueing all of them and draining once |
| DeviceSide.Server.CloseStream | qdbd/server.cpp:246-264 | stream and executor leave their tables and the stream's messages leave the queue |
| DeviceSide.Server.HandleClose | qdbd/server.cpp:111-114 | a Close releases a waiting device |
| DeviceSide.Server.CheckVersion | qdbd/server.cpp:266-283 | accepts exactly the payloads that start with the big-endian version 1 |
| DeviceSide.DrainTwice | qdbd/server.cpp:137-187 | draining before more is queued makes no difference to where the device ends |
| DeviceSide.ReceivedInSteps | qdbd/server.cpp:235-244 | acknowledging, receiving and answering one after the other equals queueing everything and draining once |
| Octets.HandshakeMessages | qdbd/server.cpp:199-226 | the Connect, and the Refuse for either reason, byte for byte |
| DeviceLaws.HandshakeOutcome | qdbd/server.cpp:65-79 | for every state and supported message, each as an if-and-only-if: the device forgets everything and accepts a Connect that starts with 00 00 00 01; it forgets everything and sends the Refuse 00 00 00 02 00 00 00 01 for any other Connect; it sends the Refuse 00 00 00 01 for anything else when disconnected; nothing else disconnects it |
| DeviceLaws.ReplyReaches | qdb/server/connection.cpp:149-156 | what the device answers to a Connect, or when disconnected, and what that makes of a waiting host: it is connected, it gives up without a further Connect on another version, or it starts over |
| DeviceLaws.DrainFaultsIff | qdbd/server.cpp:137-187 | in any state and for any queue, an assertion of processQueue fails if and only if the first message that is not a Connect, a Close or an Ok is Invalid, an Open, or a Write while not connected |
| DeviceLaws.DrainOutcome | qdbd/server.cpp:137-187 | the device sends its queue up to the first Write and then waits, or sends all of it |
| DeviceLaws.OpenOutcome | qdbd/createexecutor.cpp:40-57 | an Open gets the next id, whose Ok is sent at once or queued if the device waits; its executor is Echo, Handshake or NetworkConfiguration if and only if the tag starts with 00 00 00 01, 02 or 03, and none if and only if it is shorter or another |
| DeviceLaws.ExecutorNamed | qdbd/createexecutor.cpp:40-57 | a tag that starts with 00 00 00 01, 02 or 03, and no other, names Echo, Handshake or NetworkConfiguration |
| DeviceLaws.StrayWriteOutcome | qdbd/server.cpp:237-241 | a Write to an unknown stream adds exactly one Close for its pair of ids, on the wire at once if the device is Connected, and changes no table |
| DeviceLaws.WriteOutcome | qdbd/server.cpp:242-243 | a Write to an open stream adds its Ok and then, if it completes a packet, the Writes of the packet itself for Echo, of exactly `answer` for Handshake and NetworkConfiguration, and of nothing without executor; only this stream changes |
| DeviceLaws.OkAlone | qdbd/server.cpp:242-243 | without executor, or before the packet is complete, exactly one Ok is added |
| DeviceLaws.CloseOutcome | qdbd/server.cpp:246-264 | a Close takes away stream, executor and what is queued for them, ends a wait even if the stream is unknown, and is not answered |
| DeviceLaws.OkOutcome | qdbd/server.cpp:115-117 | an Ok ends a wait, so that the queue is sent up to the next Write, and is ignored otherwise |
| Protocol.WithoutDevAppend | qdbd/server.cpp:257-262 | the queue keeps its order, and loses exactly the messages of the device stream |
| DeviceMachine.HandleOk | qdbd/server.cpp:55-127 | whatever supported message arrives in whatever state, the device's invariant holds afterwards: its queue is empty or it is Waiting, and no assertion fails |
| DeviceMachine.DrainEnds | qdbd/server.cpp:137-187 | draining ends with an empty queue or Waiting, and trips no assertion |
| DeviceMachine.DrainKeepsOrder | qdbd/server.cpp:137-187 | messages leave the queue in order; none is lost, added or changed |
| DeviceMachine.OkBeforeResponse | qdbd/server.cpp:235-244 | the Ok for a Write leaves before everything that the Write triggers, and after everything that was queued before |
| DeviceMachine.EchoAnswers | qdbd/echoexecutor.cpp:45-49 | an echo stream has always written exactly the packets it has received |
| Dispatch.HostNeverFaults | qdb/server/connection.cpp:229-286 | in every run of the host, with a device that sends any supported messages and an application that calls anything it may, no assertion of processQueue fails: Connect leaves the queue only when Disconnected, Open, Write and Close only when Connected |
| Dispatch.DeviceNeverFaults | qdbd/server.cpp:137-187 | in every run of the device, with a host that sends any supported messages, no assertion of processQueue fails, and between messages the queue is empty or the device is Waiting |
| SyncSteps.RunKeeps | qdb/server/connection.cpp:123-214 | the joint invariant holds in every state of every run |
| SyncSteps.NextKeeps | qdb/server/connection.cpp:123-364 | every delivery and every call of the application keeps it |
| SyncSteps.SessionEffect | qdbd/server.cpp:65-125 | every message of the host keeps the session invariant on the device's side |
| HostReceives.DispatchKeeps | qdb/server/connection.cpp:158-211 | every message of the device keeps the session invariant on the host's side |
| HostSteps.ProcessQueueKeeps | qdb/server/connection.cpp:229-286 | sending keeps the session invariant, including the removal of a stream by its own Close |
| DeviceReceives.DrainKeeps | qdbd/server.cpp:137-187 | draining keeps the session invariant |
| SyncSteps.TakeReply | qdb/server/connection.cpp:149-154 | the host that takes a Connect is in a session, or another Connect is still in flight |
| SyncSteps.DeviceKeepsAwaiting | qdbd/server.cpp:76-79 | an overlapping Connect leaves the device freshly reset, with its reply last on the wire |
| Theorems.Resynchronised | qdb/server/connection.cpp:137-163 | once the host is connected and no Connect is in flight, every host stream has a device stream with the same pair of ids, every other device stream is accounted for by an Ok or a Close under way, and every request by its Open or its device stream |
| Theorems.NoDeadlock | qdb/server/connection.cpp:216-286 | in an established session, if both wires are empty then nobody waits and the device has nothing queued |
| Theorems.NothingLeaks | qdb/server/connection.cpp:305-327 | in an established session with both wires empty, the stream tables of both ends are the same, and the pending requests are exactly those whose Open the host has still queued |
| Theorems.QuietMeansEstablished | qdbd/server.cpp:189-204 | if both wires are empty, a host that is not disconnected is in an established session: no handshake gets stuck |
| Theorems.StopAndWait | qdb/server/connection.cpp:183-204 | Opens and Writes on the wire plus Oks queued or on the wire are exactly one while the host waits and none otherwise |
| Witnesses.HostStalls | qdb/server/connection.cpp:273-276 | a run from power-on that ends in an established session with both wires empty, the host connected and an Open queued |
| Theorems.DeviceWindow | qdbd/server.cpp:111-117 | the device's Writes and the host's Oks under way are at most one while the device waits, plus the number of Closes it handled while waiting |
| Witnesses.TwoUnansweredWrites | qdbd/server.cpp:111-117 | a run from power-on after which two Writes of the device are unanswered, which is the bound of the window |
| Theorems.EndToEnd | libqdb/stream.cpp:55-130 | for each stream and each direction, the fragments received, on the wire and queued are those of the packets written; the packets emitted are a prefix of them, and all of them once nothing is under way |
| Theorems.ArrivalsFit | libqdb/stream.cpp:88-118 | in an established session, every Write that arrives at a stream has that stream's ids and meets the assertions of receiveMessage |
| DoomedSessions.NextIsBarren | qdb/server/connection.cpp:183-204 | in a session that starts while another Connect is under way the host gets no streams: every step keeps it that no request is answered before the Connect arrives |
| Arrivals.StreamsMeanEstablished | qdb/server/connection.cpp:159-163 | in every run from power-on, the host has streams only in an established session |
| Arrivals.EveryArrivalFits | libqdb/stream.cpp:88-118 | in every state of every run from power-on, resets included, every Write that arrives at a stream, on either side, has that stream's ids and meets the assertions of receiveMessage |
| Theorems.Echoes | qdbd/echoexecutor.cpp:45-49 | what comes back on an echo stream is a prefix of what was written, and all of it at rest |
| WithoutClose.EchoesEverything | qdb/server/connection.cpp:183-213 | in a session in which nothing is closed, whatever the run before it closed or reset, the device has one unanswered Write at most, the host has something queued only while it waits, and at rest every request has been granted and every echo stream has returned everything |
| Convergence.DeliveryDecreases | qdb/server/connection.cpp:138-163 | whatever the executor answers, a delivery decreases the measure, but for seven times the bytes by which an answer is longer than the packet it answers |
| Convergence.DeliveryDescends | qdb/server/connection.cpp:138-163 | whatever the executor answers, a delivery takes one of the host's Writes away for good, or it leaves all of them and decreases the measure: there are no endless deliveries |
| Convergence.HostDecreases | qdb/server/connection.cpp:184-188 | what the host does with a message outweighs what it sends in return, for every state and message |
| Convergence.HandleWrites | qdb/server/connection.cpp:123-214 | handling a message never adds a Write to what the host has queued or sent |
| Convergence.DeviceDecreases | qdbd/server.cpp:65-80 | the same for the device and any answer, but for the bytes by which the answer is longer than the packet it answers |
| Convergence.Converges | qdb/server/connection.cpp:329-340 | for any answers, the number of deliveries that follow is bounded by the measure and those extra bytes, and for each bound on the length of an answer by the measure and the number of Writes; when no delivery is possible the host is disconnected or in a session in which nobody waits |
| Reconnection.RefuseIsUnderstood | qdbd/server.cpp:214-226 | the host reads from a Refuse the reason for which it was sent |
| Reconnection.ReachesSession | qdb/server/connection.cpp:138-163 | from any state of any run, with whatever is in flight and whatever the executors answer, every complete series of deliveries ends in a session in which nobody waits, or the host was disconnected and no message has roused it; it does end in a session if the host is not disconnected, a Connect is in flight or anything but Invalid is on its way to the host |
| Reconnection.OnlyCloseGivesUp | qdb/server/connection.cpp:288-303 | connect() makes that condition true, and every step but close() keeps it |
| Grammar.HistoryShape | qdb/server/connection.cpp:229-276 | a history that never takes a wrong step has the form Open?, (Write or Ok)*, Close* |
| IdentityRuns.IdsAreFresh | qdb/server/connection.cpp:108-113 | the counters are ahead of every id ever used, requests and streams have different ids, and device ids stand for different host ids |
| IdentityRuns.IdsAgree | libqdb/stream.cpp:90-92 | in every state of every run, resets included, each stream on either side has the pair of ids that the device minted, and each Write under way to it has that pair |
| IdentityRuns.HistoriesAreWellFormed | qdb/server/connection.cpp:216-276 | for each host id, all that the host has ever sent has the form Open?, (Write or Ok)*, Close* |
| IdentityRuns.CloseComesLast | libqdb/stream.cpp:78-81 | when the Close of an open stream leaves the queue, every fragment written to the stream has been sent before it |
| Wire.CodesAreInverse | libqdb/protocol/qdbmessage.cpp:120-137 | the command codes are distinct, and no other number is taken for a command |
| Octets.BytesOf | libqdb/protocol/qdbmessage.cpp:141-148 | a number is written with its most significant byte first |
| WireLaws.CodeLetters | libqdb/protocol/qdbmessage.h:49-58 | the codes are CNXN, RFSE, OPEN, WRTE, CLSE and OKAY in ASCII |
| WireLaws.Layout | libqdb/protocol/qdbmessage.cpp:141-148 | a message is its command, host id, device id, length and payload in this order; a null payload has the length FF FF FF FF |
| WireLaws.ReceivedOutcome | libqdb/protocol/qdbtransport.cpp:74-88 | for all bytes that may be read: less than a header is Invalid; otherwise command, ids and payload are those at their places, and a length beyond the message gives an empty payload |
| WireLaws.FrameOutcome | qdbd/usb-gadget/usbgadgetreader.cpp:47-84 | for any transfers on the endpoint: which are taken, and when nothing, the header or the whole frame is emitted; and exactly when the assertion about the length holds |
| Wire.DecodeEncode | libqdb/protocol/qdbmessage.cpp:141-169 | decoding inverts encoding, whatever follows in the buffer and whether or not an empty payload is null |
| Wire.ReceivedIsSent | libqdb/protocol/qdbtransport.cpp:57-88 | a message survives the exact-size encoding and the decoding from a zero-padded buffer |
| Wire.OneFrame | qdbd/usb-gadget/usbgadgetreader.cpp:47-84 | the reader takes exactly the transfers of one message, emits its encoding, and the size assertion holds |
| Wire.HostToDevice | qdb/server/usb-host/usbconnection.cpp:127-150 | for every sequence of messages, splitting, reading and decoding gives the same sequence |
| Wire.DeviceToHost | libqdb/protocol/qdbtransport.cpp:74-88 | the same in the other direction, one transfer per message |
| WireObjects.DataStream.PutMessage | libqdb/protocol/qdbmessage.cpp:141-148 | the stream writes the encoding, over exactly the buffer |
| WireObjects.DataStream.TakeMessage | libqdb/protocol/qdbmessage.cpp:150-169 | the stream reads what the decoding function says, for every buffer |
| WireObjects.QdbTransport.Send | libqdb/protocol/qdbtransport.cpp:57-72 | the encoding of the message is put on the endpoint as its transfers, and counted in full |
| WireObjects.QdbTransport.Receive | libqdb/protocol/qdbtransport.cpp:74-88 | one read is taken; what is shorter than a header is an Invalid message |
| WireObjects.UsbConnection.WriteData | qdb/server/usb-host/usbconnection.cpp:127-150 | the header and, if there is one, the payload become transfers of their own |
| WireObjects.UsbConnection.ReadData | qdb/server/usb-host/usbconnection.cpp:114-125 | reads are taken in the order in which they were queued |
| WireObjects.UsbConnection.DataRead | qdb/server/usb-host/usbconnection.cpp:152-156 | a read is queued last |
| WireObjects.UsbGadgetReader.ExecuteRead | qdbd/usb-gadget/usbgadgetreader.cpp:47-84 | takes one or two transfers and emits the whole frame or nothing |
| Traffic.TrafficFits | libqdb/protocol/protocol.h:37-39 | in every run no message exceeds the maximal payload |
| Traffic.WiresAreCarried | libqdb/protocol/qdbtransport.cpp:57-88 | whatever run the protocol has made, the messages on both wires come out of the transfers that carry them unchanged and in order |
| Subnets.BlockOf | qdb/server/subnet.cpp:63-68 | addresses with the same first bits are an aligned block of consecutive addresses |
| Subnets.CoversBlock | qdb/server/subnet.cpp:66-67 | a subnet with prefix p covers the addresses of its protocol in the same block of 2^(32 - p) or 2^(128 - p) addresses, or of one address if p is larger |
| Subnets.OverlapsIffIntersect | qdb/server/subnet.cpp:63-68 | the two-sided test holds if and only if the sets of addresses intersect and not both prefix lengths are unknown; subnets that overlap are nested |
| Subnets.IntersectIff | qdb/server/subnet.cpp:63-68 | exactly when two subnets share an address: the test holds, or both are for one address with unknown prefix length |
| Subnets.FindUnusedSubnet | qdb/server/subnet.cpp:59-73 | the loops compute the first candidate that overlaps no used subnet |
| Subnets.FirstFit | qdb/server/subnet.cpp:59-73 | for any lists, that is the first candidate whose addresses are disjoint from those of every used subnet, as far as the test can see, and there is none if and only if no candidate is |
| Subnets.DisjointIfKnown | qdb/server/subnet.cpp:59-73 | the test sees everything when the prefix length of the candidate, or those of all used subnets, are known |
| SubnetPools.PoolIs | qdb/server/subnet.cpp:122-139 | the pool is 172.16.58.1 to 172.31.58.1, 192.168.58.1 and 10.17.20.1, each with prefix 30 |
| SubnetPools.PoolIsDisjoint | qdb/server/subnet.cpp:122-139 | no two subnets of the pool overlap |
| SubnetPools.SubnetPool.constructor | qdb/server/subnet.cpp:116-140 | the pool starts with its eighteen subnets and nothing reserved |
| SubnetPools.SubnetPool.Candidates | qdb/server/subnet.cpp:81-93 | the pool subnets that are not reserved, in pool order |
| SubnetPools.FreeIff | qdb/server/subnet.cpp:86-91 | a subnet is a candidate if and only if it is in the pool and not reserved |
| SubnetPools.SubnetPool.Reserve | qdb/server/subnet.cpp:95-105 | a reservation is made exactly if there is none for the subnet |
| SubnetPools.SubnetPool.Release | qdb/server/subnet.cpp:107-114 | the first occurrence is erased |
| SubnetPools.ErasedIs | qdb/server/subnet.cpp:111-113 | from a list without duplicates that removes exactly this subnet |
| Reservations.ReservationsAreExclusive | qdb/server/subnet.cpp:47-57 | in every interleaving of any number of threads, the reserved list has no duplicates and is exactly the subnets of the live reservations, no two of which share a subnet or, in the pool, an address |
| Reservations.FetchedAreFree | qdb/server/subnet.cpp:81-93 | the candidates that a thread fetches are exactly the pool subnets without a live reservation |
| Reservations.ReservedIfFree | qdb/server/subnet.cpp:95-105 | in every state of every run, a subnet is reserved if and only if it has no live reservation, and otherwise nothing changes |
| Reservations.TakenIsApart | qdb/server/subnet.cpp:47-57 | a search reserves the first of its candidates that is unused, and nothing if and only if there is none or it has a live reservation by now; what it reserves is a pool subnet disjoint from all used subnets and, however old its list of candidates, from all pool subnets reserved; it shares an address with another live reservation if and only if that one is not of the pool and overlaps it |
| Reservations.SharedAddresses | qdb/server/subnet.cpp:95-105 | exactly when two live reservations share an address, and that not both are then of the pool |
| Reservations.OverlapReached | qdb/server/subnet.cpp:99-101 | a run with two live reservations of which one contains the other |
| Reservations.DropRestores | qdb/server/subnet.cpp:148-157 | releasing a pool subnet makes it a candidate again, in its place in the order of the pool, and changes no other candidate |

## Left out

- Failure of `send` and of USB transfers, partial transfers, and a restart of the device process: the failure paths leave partly reset state, and a restart starts the device's ids anew.
- Messages that end in `qFatal`: Open at the host, Invalid and Refuse at the device.
- Wrap-around of stream ids at 2^32, lifetimes of `Stream` and executor objects, the `closed` and `disconnected` signals, logging.
- Callbacks of `createStream`: the requests are a set of ids, and what a callback does is a later step of the application.
- HostMachine.TripsAssertion: the assertion of `checkVersion` that a Connect payload has exactly four bytes is not part of it; a longer payload is judged by its first four bytes, as a release build does.
- StreamObjects.Stream.ReceiveMessage: does what a release build does where an assertion of the source would stop; that the assertions hold is Streams.RoundTrip and Arrivals.EveryArrivalFits.
- DeviceSide.Server.HandleMessage: does what a release build does if an executor answers with an empty packet, where the assertion at libqdb/stream.cpp:57 stops; an echo executor answers so only a host that sends an empty packet.
- HostSide.Connection.WritePacket: demands that the stream is not closed before the loop has used it for the last time, because the source then goes on with a destroyed object; Sync.WriteStaysOpen says when that cannot happen.
- DeviceMachine.Reply: what the handshake and network configuration executors read from files, interfaces and scripts is the parameter `answer`, given when their packet arrives.
- The order in which `Server` inserts into its tables is not observable in the model, and executors are values.
- Theorems.NoDeadlock: says nothing about the host's queue, because the host can stall after a Close (see above).
- libusb, FunctionFS, reader and writer threads, timers and error counters: an endpoint is a FIFO of complete transfers, and a read takes one of them.
- Wire.SizeFits: the conversion of a length above 2^31 to a negative int is excluded by the assertion of `GetDataSize` that it restates.
- QHostAddress::isInSubnet is modelled by its result on the leading bits; scope ids of IPv6 addresses are not modelled.
- The capacity hint of `candidates` at qdb/server/subnet.cpp:85, which assumes that no more subnets are reserved than there are candidates.
- The client, the JSON messages between client and server, `DeviceManager`, device enumeration, services, log cache and configuration: bookkeeping and I/O.

# modelrelay: the request path, modelled and proved

modelrelay is a relay that takes HTTP requests for language models, picks a GPU node whose agent keeps a
WebSocket connection open to the relay, sends the request to that agent in binary frames, and streams the
agent's response back. This project models that path, from admission to the last byte written to the client,
and proves what it keeps on every input and under every interleaving.

## How to read it

| file | what it models |
|---|---|
| `Basics.dfy` | results, bytes, subsequences, counting |
| `Errors.dfy` | error codes and their HTTP status |
| `Frames.dfy` | the binary data frame: encoder, decoder, whole streams |
| `RequestIds.dfy` | string and 16-byte request ids |
| `Transport.dfy` | request bodies: the relay's chunker, the agent's queue and reassembler |
| `Response.dfy` | one response: bounded channels, the `select` loop of `forwardResponse`, drain loops |
| `Upstream.dfy` | the agent's half of a response: reading the local model, sending frames |
| `Demux.dfy` | many requests on many connections, and the whole response path end to end |
| `Nodes.dfy` | nodes, the registry, string order |
| `Scheduler.dfy` | selection, error classification, the polling wait |
| `Directory.dfy` | the merged model directory |
| `Health.dfy` | heartbeats and the heartbeat monitor, in real time |
| `Lifecycle.dfy` | connections registering, being kicked, being torn down |
| `Admission.dfy` | all requests at once: queue, semaphore, node slots, pending table, outcomes |
| `Proxy.dfy` | one request through `handleProxy` on the real objects |
| `Passage.dfy` | that this request is one of those of `Admission.dfy` |
| `Agent.dfy` | the agent's request table and local semaphore |
| `AgentDemux.dfy` | all request bodies on one agent |

Code that changes state is a class with methods or a method with a loop. Where goroutines interleave, every
mutex-protected section, channel operation and ready `select` case is one atomic step of a state machine over
values (the exceptions are under "Left out"), an event whose case is not ready changes nothing, and a statement about `Run(..., es)` for all `es` is
a statement about all interleavings. The methods are tied to those machines: `Forwarder.ForwardResponse`,
`ActiveRequest.AssembleBody` and `Monitor.Run` are the source's loops, driven by a schedule that says what the
other goroutines do between two turns and which ready case each `select` takes, and their contracts say that
they end in exactly the state the machine reaches on that schedule. Lemmas named after the steps
(`DispatchIsARun`, `TeardownIsThreeSteps`, `HandleRequestIsTwoSteps`, `PassageIsHandleProxy` and the like) do the
same for the other methods.

What a machine does is pinned twice: by laws over its runs, and by lemmas that say the same in the source's own
numbers and conditions without the machine's functions (`CancelsByCause`, `LossesByCause`, `StatusNumbers`,
`EncodedBytes`, `DecodeAnswers`, `FramesInDetail`, `DispatchInPlainTerms`, `DirectoryInPlainTerms` and their like).

## Main results

1. **Response path, end to end** (`Demux.EndToEnd`). In any interleaving of any number of requests and nodes,
   whatever is lost, late or out of order: if the agent read its upstream response to the end and the request is
   counted a success, with no more frames arriving than were sent, then the client has exactly the frames sent,
   which carry the upstream bytes, if and only if all came before the end, in order, and found room in the queue. When
   some messages may be lost but the rest arrive in order, the client has the upstream bytes if and only if no
   frame was lost on the way and none met a full queue.
2. **A frame lost to a full queue is never silent while its response runs** (`Response.ReachableStream`,
   `Response.PostedErrorDecides`), and yet a request can be counted a success without it
   (`Response.SuccessDespiteLoss`). A frame lost with a connection is silent (`Response.LostInTransit`).
3. **Request bodies** (`Transport.LossDetected`, `Transport.BodyNeverCorrupted`, `Transport.BodyRoundTrip`,
   `AgentDemux.EveryBodyIsItsOwn`). Whatever frames are lost, whatever cancellations, timeouts and overflows interleave
   and however many requests share the agent, a body that the agent hands on is the body sent. An order that leaves
   the last frame last is the one thing that is not noticed (`Transport.ReorderingUndetected`).
4. **Nested resources** (`Admission.ResourcesNest`, `Admission.EverythingReturned`): pending entries, node slots
   in use, semaphore tokens and the limit are ordered at every step, and all return to zero by every exit.
5. **Connection lifecycle** (`Lifecycle.OwnershipHolds`, `Lifecycle.SoundExactly`, `Lifecycle.RegistryHolds`): no teardown
   harms another connection, and kicks, whose five sections interleave with everything, leave both maps sound
   all along exactly when each section is well aimed: a removal finds no entry or that of the connection looked up,
   with its handle seen and after its put, and a deletion finds no handle in use.
6. **Selection, waiting and directory** (`Scheduler.Select`, `Scheduler.WaitForNode`,
   `Directory.ListedIsSelectable`): the choice is unique and optimal, every error is characterised in both
   directions, the wait is bounded, and the directory lists exactly what can be picked.
7. **Health** (`Health.ClosedInWindow`, `Health.SuspectBeforeClose`): a silent node is closed only at an age in
   a window one period long, and was suspected in that same silence.

## What the code does not keep

Each of these reads like a promise of the code or of its documentation and is false of the code. A lemma gives
a concrete run in which it fails, and one says exactly when it holds.

- A response counted as success is complete: `SuccessDespiteLoss` and `LostInTransit`; exactly when no frame was lost
  on the way and none met a full queue (`ExactDelivery`), and for messages in any order exactly when all came in
  time, in order, and found room (`DeliveryInAnyOrder`).
- The client's status is the agent's: `StatusLost`, and `EmptyErrorSucceeds`, where a 404 is counted a success;
  over whole runs exactly when the headers were the first thing `select` took, or when what was written instead
  is the same (`StatusFollowsAgent`).
- An error body is never appended to data: `ErrorBodyAppended`, `ErrorBodyAfterLateFrame`; exactly when a header was
  written, or no frame was queued when the error was taken or came while the queue was drained
  (`ErrorBodyAfterData`).
- The queue length bounds the queue (`docs/config.md:25`): `WaitingPassesQueueLength`. Of the runs in which at most k
  requests are between the check and the increment at once, all respect it exactly when k is 1
  (`QueueLengthRespectedIff`); for other k there is a bound that is reached (`WaitingBounded`, `WaitingBoundReached`).
- All nodes busy is reported as busy: `BusyMisreported`; always for a named capability (`BusyMeansWaitable`), and
  for none exactly under `BusyWithoutCapability`.
- A model whose nodes are all offline is a 404 (`docs/newapi.md:42`): `OfflineModelElsewhere`; exactly
  when some node serves and no registered node has the model (`OfflineModelStatus`).
- Draining lasts until the node is gone: `DrainingUndone`; over whole runs exactly when no tick comes at an age in
  the window of `DrainingLeavesBySilence`.
- `cancelAll` cancels all requests, as its comment says: `CancelAllMisses`; exactly when truncated SHA-256
  permutes the set of active ids (`CancelAllReaches`).
- Body frames out of order are refused: `ReorderingCorrupts`; for every order exactly when the last frame moved, and
  otherwise the result is right exactly when every place holds the bytes that belong there
  (`ReorderingUndetected`).
- A kick never harms a connection it did not look up, and leaves nothing behind: `KickHitsSuccessor` and
  `UnsafeKickLeaks`; exactly when each of its sections is well aimed (`KickKeepsExactly`, `SoundExactly`).
- Nodes online and offline balance: `CountersUnbalanced`; `CountersBalance` gives the difference.

Three smaller disagreements with documentation and comments: a request that waits in vain for a busy node is
answered with `no_available_node`, not with the queue codes of `docs/newapi.md:44`, and one canceled in the queue would
see 408, while the record says 499 (`docs/newapi.md:47`), both in `Proxy.BusyAndCanceled`; and ties go to the smallest
id (`Scheduler.TieGoesToSmallest`), not round-robin as the comment at `internal/relay/scheduler.go:88` has it.
`docs/protocol.md`, which the source cites, is not part of this model.

## Model

| member | source | states |
|---|---|---|
| `Frames.Encode` | internal/protocol/frame.go:75-102 | a payload above 256 KiB is refused; otherwise the bytes written in place are the 31-byte header followed by the payload |
| `Frames.DecodeFrame` | internal/protocol/frame.go:105-140 | the answer and the unread rest of the reader are those of DecodeBytes, with each error condition in the source's order |
| `Frames.EncodedBytes` | internal/protocol/frame.go:75-102 | what stands at each byte of an encoded frame: M, R, version 1, type, flag bits 1, 2 and 4, id at 5 to 20, little-endian sequence number at 21 and length at 26, a zero, the payload from 31 |
| `Frames.DecodeAnswers` | internal/protocol/frame.go:105-140 | every answer of the decoder for every input, in the order of its tests and in numbers |
| `Frames.DecodeEncode` | internal/protocol/frame.go:75-140 | encoded frame followed by any bytes decodes to the frame and leaves those bytes, if and only if its type is known |
| `Frames.StrictPrefixRejected` | internal/protocol/frame.go:105-140 | every strict prefix of an encoded frame is rejected, as end of file exactly at the two cuts where a read begins |
| `Frames.AcceptedBytes` | internal/protocol/frame.go:105-140 | whatever is accepted is a frame Encode takes, and encoding it gives back the bytes read if and only if the reserved flag bits and byte are zero |
| `Frames.StreamRoundTrip` | internal/protocol/frame.go:75-140 | a concatenation of encoded frames parses back to exactly the list |
| `Frames.CutStreamRejected` | internal/protocol/frame.go:105-140 | a stream cut inside any frame is rejected, after any number of whole frames |
| `Frames.EncodeAllInjective` | internal/protocol/frame.go:75-102 | two different frame lists never share a byte stream |
| `Errors.StatusNumbers` | internal/protocol/errors.go:29-58 | the number of every code, and 408 for a cancellation on the wire |
| `RequestIds.UuidRoundTrip` | internal/protocol/frame.go:142-154 | the 16 bytes of a UUID survive its string form, whatever the hash |
| `RequestIds.UuidsStayDistinct` | internal/protocol/frame.go:142-154 | two UUID strings with the same 16-byte id are of the same UUID |
| `RequestIds.RawIdIsHashed` | internal/protocol/frame.go:144-154 | a 16-byte raw id passed as a string is never taken for a UUID: it is always hashed |
| `RequestIds.UuidOrHash` | internal/protocol/frame.go:144-154 | a string is read as a UUID if and only if it is 32 hex digits without its dashes; any other is hashed |
| `RequestIds.UppercaseUuid` | internal/protocol/frame.go:144-154 | a UUID in upper case names the same request |
| `Transport.SendBody` | internal/relay/proxy.go:147-170 | the loop sends exactly the chunks of the body, in order, up to the first send that fails; it succeeds if all were sent, and always for an empty body, whose send error is ignored |
| `Transport.ChunkLaws` | internal/relay/proxy.go:147-170 | the chunks carry the body in raw request frames of 131072 bytes, only the last may be shorter; exactly the first is First, exactly the last is Last; sequence numbers are 1..n if and only if n is below 2^32 |
| `Transport.ActiveRequest.RouteBodyFrame` | internal/agent/agent.go:182-197 | a body frame is queued if and only if fewer than 16 are and the entry is open or the tie goes that way; it cancels the request if and only if it meets 16 while the entry is open; it never blocks |
| `Transport.LossesByCause` | internal/agent/agent.go:182-197 | over every run: losses are exactly the frames that met 16 queued ones or a closed entry, the request is canceled exactly by a cancel or such an overflow, and the entry closes exactly when it finishes after assembly |
| `Transport.SeventeenthCancels` | internal/agent/agent.go:190-196 | on a fresh entry 16 frames are queued, and the 17th is lost and cancels |
| `Transport.ActiveRequest.AssembleBody` | internal/agent/agent.go:305-339 | the select loop ends in the state of the InboundRun of its schedule: queue, cancel flag and verdict |
| `Transport.AcceptedExactly` | internal/agent/agent.go:317-329 | frames are assembled to b if and only if those up to the first Last one have the declared total length and payload b |
| `Transport.RejectedExactly` | internal/agent/agent.go:317-327 | frames are turned down as too long if and only if the declared length is passed before or with the first Last one, and as a mismatch if and only if the first Last one comes short of it |
| `Transport.LossDetected` | internal/relay/proxy.go:147-170 | of all subsequences of a body's frames only the complete one is assembled, and then to the body |
| `Transport.BodyRoundTrip` | internal/agent/agent.go:305-339 | chunk, encode, decode, assemble is the identity on every body |
| `Transport.InboundReachable` | internal/agent/agent.go:182-197 | at every step frames taken plus frames queued are an order-preserving part of the arrivals, exactly as many as not lost, and a loss has canceled or followed the end of the request |
| `Transport.BodyNeverCorrupted` | internal/agent/agent.go:190-196 | under every interleaving of arrivals, cancellation, timeouts, overflow and loss, an assembled body is the body sent, with every frame arrived and taken |
| `Transport.CompleteBodyAssembled` | internal/agent/agent.go:305-339 | if all frames arrived and were taken and neither cancel nor timeout was seen, the body has been assembled |
| `Transport.ReorderingUndetected` | internal/agent/agent.go:317-329 | the frames of any body in any order: with the last frame still last they are assembled, and to the body if and only if every place holds the bytes that belong there; otherwise assembly stops with a length mismatch |
| `Transport.ReorderingCorrupts` | internal/agent/agent.go:317-329 | a concrete body of three chunks that is assembled wrongly after an exchange |
| `Response.PendingRequest.DispatchFrame` | internal/relay/wss.go:471-489 | one frame is queued, dropped because the entry is closed, or, when the queue is full, leads to a cancel and an error in the error channel if that is free |
| `Response.Forwarder.OnCtxDone` | internal/relay/proxy.go:226-234 | the canceled branch: counter, cancel message, and an error response and record only if nothing was written |
| `Response.Forwarder.OnHeaders` | internal/relay/proxy.go:236-246 | the headers branch: record, status line, first-token timer off |
| `Response.Forwarder.OnFrame` | internal/relay/proxy.go:267-284 | the frame branch: implicit 200, one payload written, or the end when the write fails |
| `Response.Forwarder.DrainTurn` | internal/relay/proxy.go:286-332 | one turn of either drain loop, and what happens when it finds the queue empty |
| `Response.Forwarder.ForwardResponse` | internal/relay/proxy.go:177-335 | the whole loop on any schedule ends in exactly the state the step machine reaches on it: channels, client, record, counters |
| `Response.ReachableStream` | internal/relay/proxy.go:177-335 | after every interleaving: bytes written plus bytes queued are in order and complete up to counted losses; an overflow of a running response has an error waiting or about to be posted; an error body comes only with its own recorded code and before any header, a recorded code has its own status, and exactly the counter of the outcome is one |
| `Response.PostedErrorDecides` | internal/relay/proxy.go:311-332 | a posted error waits, or was taken and decides the outcome, or another branch ended the request |
| `Response.CancelsByCause` | internal/relay/proxy.go:224-333 | over every run: phase and outcome are those of the case that ended the loop; the agent is told to cancel once for a client that left or a timer that ended the response, once for every reported overflow, and for nothing else; the timers are armed as configured, the first until something was taken |
| `Response.FramesFindRoom` | internal/relay/wss.go:477-488 | over every run: frames are refused exactly when they meet 16 queued ones, or come to a closed entry and lose the tie |
| `Response.SlotsKeepTheFirst` | internal/relay/wss.go:411-443 | over every run: a second headers, error or done message does not displace the first, which waits until select takes it |
| `Response.AgentErrorInNumbers` | internal/relay/proxy.go:311-332 | an agent error that decides the response goes into the record as 502, 504, 503, 413, 400, 499 or 500 by its code, and to a client that has seen nothing as that number, or 408 for 499 |
| `Response.OwnExitsInNumbers` | internal/relay/proxy.go:226-265 | timers end a response with 504 and their own code; a client that left is 499 in the record and 408 on the wire unless a header was written |
| `Response.ExactDelivery` | internal/relay/proxy.go:286-309 | if what arrives is any part of what was sent, in order, a success means the client has what was sent if and only if no frame was lost on the way and none met a full queue |
| `Response.DeliveryInAnyOrder` | internal/relay/proxy.go:286-309 | whatever arrives and when, a success means the client has, in order, the frames that came in time and found room; and exactly those sent if and only if they came in time, in order, and all found room |
| `Response.LostInTransit` | internal/relay/wss.go:463-489 | a concrete run: the second of three frames is lost on the way, as when the agent reconnects, and the request is a success without it |
| `Response.ErrorBodyAfterData` | internal/relay/proxy.go:311-332 | for every continuation that ends with the error taken: the client has all frames queued then or while draining, and an error body follows data if and only if no header was written and there was such a frame |
| `Response.ErrorDrainEnds` | internal/relay/proxy.go:311-332 | left alone, the drain after an error writes the queue and ends with that error |
| `Response.ErrorBodyAfterLateFrame` | internal/relay/proxy.go:311-332 | a concrete run: the queue is empty when the error is taken, and a frame that comes during the drain still precedes the error body |
| `Response.ErrorBodyAppended` | internal/relay/proxy.go:311-332 | a concrete run: one frame and an error waiting together reach the client as a 200 with data and then an error body |
| `Response.StatusFollowsAgent` | internal/relay/proxy.go:224-335 | over whole runs: the client of an ended response has the status that belongs to the first case select took, and it is the agent's if and only if that was the headers case or what was written instead is the same |
| `Response.RecordFollowsClient` | internal/relay/proxy.go:236-309 | the record of a success has the client's status if and only if headers were taken first, or never, or said 200 |
| `Response.EmptyErrorSucceeds` | internal/relay/proxy.go:286-309 | a concrete run: a 404 without a body whose Done is picked first is a 200 for client and record and counted a success |
| `Response.StatusLost` | internal/relay/proxy.go:267-272 | a concrete run: a 404 whose body frame is picked first reaches the client as 200 |
| `Response.SuccessDespiteLoss` | internal/relay/proxy.go:286-309 | a run of 17 frames that is counted a success with one frame lost and its error unread |
| `Response.RunFromCounters` | internal/relay/proxy.go:286-309 | a response's run is the same whatever the shared counters were before |
| `Response.DrainWritesQueue` | internal/relay/proxy.go:288-301 | a drain loop left alone writes the queued frames in order and nothing else |
| `Upstream.ServeResponse` | internal/agent/agent.go:241-301 | the messages sent are the transcript of the reads, up to the first send that fails; the request is counted served if and only if the body was read to its end and all was sent |
| `Upstream.ForwardBody` | internal/agent/agent.go:252-290 | the read loop sends one frame per non-empty read, up to the read that ends the body |
| `Upstream.FramesCarryBytes` | internal/agent/agent.go:252-269 | the frames carry exactly the bytes read, and each passes Encode and DecodeFrame unchanged |
| `Upstream.FramesInDetail` | internal/agent/agent.go:252-269 | one raw frame of type 2 for each read that returned data, numbered from 1, the first marked First, and Last only one that came together with the end |
| `Upstream.TranscriptInDetail` | internal/agent/agent.go:241-301 | headers, the frames, and Done at the end of the body or the error with its code after a failed read |
| `Upstream.TranscriptShape` | internal/agent/agent.go:241-301 | a transcript ends with Done, and has no other, if and only if the upstream body was read to its end |
| `Demux.PendingRegistry.Remove` | internal/relay/server.go:68-76 | the table without the one entry, which is closed |
| `Demux.PendingRegistry.OwnedBy` | internal/relay/wss.go:463-469 | the entry of the id, if and only if the connection's node owns it |
| `Demux.PendingRegistry.Dispatch` | internal/relay/wss.go:397-489 | one message changes the one entry with its id, and only if the sender's node owns it; only a bye ends the loop |
| `Demux.DispatchIsARun` | internal/relay/wss.go:397-489 | what Dispatch promises of the table is what the system's steps do to its open entries; clients, handlers and closed entries are left alone |
| `Demux.DispatchInPlainTerms` | internal/relay/wss.go:397-489 | each entry that a message names and the sender owns gets the status, done, error or frame if there is room, a frame too many leaves a cancel and an internal error, and every other entry is as before |
| `Demux.NonInterference` | internal/relay/wss.go:397-489 | in any run of all requests, each request's state is the one it reaches alone on the messages with its id from its node |
| `Demux.OthersDoNotMatter` | internal/relay/wss.go:463-489 | two systems whose runs agree on one request's messages agree on that request |
| `Demux.SoloIsRun` | internal/relay/server.go:68-76 | messages after the removal of the entry do not reach it; without the removal all do |
| `Demux.EndToEnd` | internal/relay/proxy.go:177-335 | for every interleaving of all requests: a success to which no more frames came than were sent means the client has the frames sent if and only if all came before the end, in order, and found room; when what comes is in order, it has the upstream bytes if and only if no frame was lost on the way or met a full queue |
| `Nodes.Node.MarkHeartbeat` | internal/relay/registry.go:165-176 | heartbeat time and the state transition of a healthy or unhealthy report |
| `Nodes.Node.SupportsModel` | internal/relay/registry.go:107-126 | model present and capability unasked, unknown or listed |
| `Nodes.Registry.TryRegister` | internal/relay/registry.go:246-257 | an entry that is not offline is never replaced |
| `Order.SortSet` | internal/relay/registry.go:297-306 | whatever the map order, the ids come out strictly sorted, none lost or added |
| `Order.LessTotal` | internal/relay/registry.go:305 | byte-wise order: any two ids are comparable, one way only |
| `Order.LessIsLexicographic` | internal/relay/registry.go:305 | the first difference decides and a proper prefix comes first |
| `Scheduler.Candidates` | internal/relay/scheduler.go:71-83 | exactly the Online or Degraded nodes with a free slot that support the request, in the order of their ids |
| `Scheduler.LeastLoaded` | internal/relay/scheduler.go:88-94 | the first of those whose share of slots in use is least |
| `Scheduler.Select` | internal/relay/scheduler.go:70-96 | among Online or Degraded nodes with a free slot that support the request, the one whose slots in use over limit is least, compared by cross products, the smallest id among equals; without one, the error whose condition holds |
| `Scheduler.SharesNotCounts` | internal/relay/scheduler.go:98-105 | a node with 2 of 10 slots in use is picked before one with 1 of 2 |
| `Scheduler.ClassifyNoNode` | internal/relay/scheduler.go:107-144 | each of the four errors if and only if its condition on the registered nodes holds |
| `Scheduler.SelectionUnique` | internal/relay/scheduler.go:70-96 | the contract of Select leaves it no choice |
| `Scheduler.TieGoesToSmallest` | internal/relay/scheduler.go:88-94 | two idle nodes: it is always the one with the smaller id |
| `Scheduler.BusyMeansWaitable` | internal/relay/scheduler.go:107-144 | corollary of Explains: for a named capability, busy is reported if and only if nobody is free, somebody serves and somebody in any state supports the request |
| `Scheduler.BusyWithoutCapability` | internal/relay/scheduler.go:126-130 | corollary of Explains: without a capability, busy is reported if and only if some node's list for the model is incomplete or names the empty capability |
| `Scheduler.BusyMisreported` | internal/relay/scheduler.go:126-130 | one full node with a complete list: a request it could serve later is refused as unsupported |
| `Scheduler.OfflineModelStatus` | internal/relay/proxy.go:358-373 | corollary of Explains: a model no serving node has is a 404 if and only if some node serves and no registered node has it; otherwise 422 or 503, each characterised |
| `Scheduler.OfflineModelElsewhere` | internal/relay/scheduler.go:107-144 | three concrete registries: the model on a suspect node only gives 503 or 422, no node at all gives 503, never 404 |
| `Scheduler.WaitForNode` | internal/relay/scheduler.go:147-170 | ends within Ceil(timeout / 50 ms) + 1 polls, every poll before the last was busy, each next one comes after 50 ms or what is left to the deadline, busy is answered only at or after the deadline, any other answer is that of the last poll or of the context |
| `Directory.ModelDirectory` | internal/relay/registry.go:328-365 | for any map order: strictly sorted, each model with exactly the serving nodes that list it and the duplicate-free union of their capabilities |
| `Directory.DirectoryInPlainTerms` | internal/relay/registry.go:328-365 | the directory through node states, models and capabilities alone |
| `Directory.MergeNode` | internal/relay/registry.go:335-353 | one node's models joined in any order keep every entry exact for the nodes visited |
| `Directory.MergeCapabilities` | internal/relay/registry.go:342-351 | the union, each capability once |
| `Directory.SortEntries` | internal/relay/registry.go:355-364 | one entry per model, in order |
| `Directory.SelectedIsListed` | internal/relay/registry.go:328-365 | every node Select can return is listed under the model asked for |
| `Directory.ListedIsSelectable` | internal/relay/registry.go:328-365 | a model can be served if and only if the directory lists a node for it that has room |
| `Health.Monitor.OnTick` | internal/relay/wss.go:341-353 | one tick: closes above twice the timeout, suspects above the timeout, counts each once |
| `Health.Monitor.Run` | internal/relay/wss.go:332-356 | the loop with heartbeats in between ends in the state of the WatchRun of its schedule |
| `Health.MissedCounts` | internal/relay/wss.go:341-353 | over every run: missed counts exactly the ticks that close or newly suspect; an administrator's state holds at once and changes nothing else |
| `Health.PeriodInSeconds` | internal/relay/wss.go:323-329 | the period is a third of the timeout, rounded down, but at least 5 s |
| `Health.ClosedInWindow` | internal/relay/wss.go:323-356 | a node is closed only at an age above twice the timeout and at most one monitor period later |
| `Health.SilenceCloses` | internal/relay/wss.go:345-349 | no tick at an age above twice the timeout passes without closing |
| `Health.SuspectBeforeClose` | internal/relay/wss.go:332-356 | with a timeout of at least 5 s, since the last heartbeat of a closed node a tick at an age in (T, 2T] had left it Suspect |
| `Health.RegularNeverSuspected` | internal/relay/wss.go:332-356 | if no gap exceeds the timeout, the node is never marked, counted missing or closed |
| `Health.HeartbeatRuns` | internal/relay/registry.go:165-176 | over whole runs: from Online or Degraded the last report decides, Suspect lasts until the first healthy one, the other states never change |
| `Health.Perform` | internal/relay/registry.go:129-176 | each operation on a node object is the one the runs of DrainingStays are made of |
| `Health.DrainingStays` | internal/relay/registry.go:129-176 | no sequence of heartbeats, reservations, releases, limits or model updates brings a draining node back, and it is never selected |
| `Health.DrainingLeavesBySilence` | internal/relay/wss.go:341-353 | over any run of heartbeats and ticks a draining node has left that state if and only if a tick came at an age in (T, 2T] before any later one, and is closed if and only if one came above 2T |
| `Health.DrainingUndone` | internal/relay/wss.go:349-353 | a concrete run: late tick, healthy heartbeat, Online again |
| `Lifecycle.Teardown` | internal/relay/wss.go:492-500 | nothing changes unless the registry still points to this very node; then entry, own handle and state go |
| `Lifecycle.KickNode` | internal/relay/wss.go:520-536 | entry and handle of the id are gone and the node is offline; an unknown id changes nothing |
| `Lifecycle.KickKeepsExactly` | internal/relay/wss.go:520-536 | in every state reached by well-aimed kicks and for every next step: all that follows stays sound if and only if that step is well aimed, that is a removal finds no entry or that of the connection looked up, with its handle seen and after its put, and a deletion finds no handle in use |
| `Lifecycle.SoundExactly` | internal/relay/wss.go:520-536 | over whole runs, kicks interleaved section by section: the maps stay sound all along if and only if every section of every kick is well aimed |
| `Lifecycle.KickHitsSuccessor` | internal/relay/wss.go:520-536 | a concrete run: the looked-up connection leaves and its successor registers before the kick removes by id; the successor serves in neither map |
| `Lifecycle.RegistryHolds` | internal/relay/registry.go:246-294 | over whole runs: the registry lists exactly the connections nobody meant to kick, all along, if and only if every removal by a kick found no entry or that of the connection it looked up |
| `Lifecycle.BaseReachable` | internal/relay/registry.go:246-294 | in every run, whatever kicks do, each entry belongs to one live connection that no kick evicted, and each such connection has its entry |
| `Lifecycle.OwnershipHolds` | internal/relay/wss.go:263-306 | after every interleaving of connects, disconnects and well-aimed kicks, both maps say exactly who owns what |
| `Lifecycle.OwnerUndisturbed` | internal/relay/wss.go:263-306 | from put to its own teardown or a kick meant for it a connection is reachable through both maps and no other owns its id |
| `Lifecycle.NothingLeftBehind` | internal/relay/wss.go:492-500 | when every connection is gone and every kick is over, both maps are empty |
| `Lifecycle.RegisterIsOneStep` | internal/relay/registry.go:246-257 | what TryRegister promises is the machine's registration step |
| `Lifecycle.TeardownIsThreeSteps` | internal/relay/wss.go:492-500 | what Teardown promises is the machine's three steps in a row |
| `Lifecycle.KickIsFiveSteps` | internal/relay/wss.go:520-536 | what KickNode promises is the machine's five sections of a kick in a row |
| `Lifecycle.UnsafeKickLeaks` | internal/relay/wss.go:520-536 | two concrete runs: a kick that looks for the handle before it is put, removing before or after the put, leaves the handle behind for ever |
| `Lifecycle.CountersReachable` | internal/relay/wss.go:293 | at every step of every run the counters equal the connections that went online and offline |
| `Lifecycle.CountersBalance` | internal/relay/wss.go:492-536 | at the end of every run the counters differ by the online connections a kick evicted minus those lost before their acknowledgement |
| `Lifecycle.CountersUnbalanced` | internal/relay/wss.go:520-536 | a concrete run: one node online, kicked, and never counted offline |
| `Admission.Reachable` | internal/relay/proxy.go:53-174 | the five invariants, for tokens, waiting, slots, pending entries and outcomes, after every interleaving |
| `Admission.ResourcesNest` | internal/relay/proxy.go:87-126 | pending entries <= slots in use over all node objects <= tokens <= limit, at every step, and waiting is the number inside acquire |
| `Admission.EverythingReturned` | internal/relay/proxy.go:87-126 | when all handlers have returned, by whatever exits, no entry, token, waiter or slot is left |
| `Admission.OutcomesConserved` | internal/relay/proxy.go:65-173 | total = success + failed + canceled + in flight + ended on a failed client write, and a recorded code always has its own status |
| `Admission.ForwardCounts` | internal/relay/proxy.go:224-333 | a finished response adds one to the bucket of its outcome and to no other |
| `Admission.SlotsCounted` | internal/relay/registry.go:129-155 | a node's Active is the number of requests holding it, and never above the largest limit ever in force |
| `Admission.FreedSlotIsCounted` | internal/relay/registry.go:140-146 | the guard in Release is never needed |
| `Admission.GrowthRespectsLimit` | internal/relay/registry.go:129-155 | Active grows by one at a time and only below the limit in force; at or above a lowered limit it only falls |
| `Admission.LimitsAsGiven` | internal/relay/registry.go:149-155 | a node joins with its limit or 8, and a limit is changed only to a positive value, to just that |
| `Admission.WaitingBounded` | internal/relay/proxy.go:338-344 | waiting stays below QueueLength + k when at most k requests are ever between check and increment |
| `Admission.WaitingBoundReached` | internal/relay/proxy.go:338-344 | for every queue length, limit and k a run reaches that bound |
| `Admission.QueueLengthRespectedIff` | internal/relay/proxy.go:338-344 | over all runs waiting stays within QueueLength if and only if k is 1 |
| `Admission.WaitingPassesQueueLength` | internal/relay/proxy.go:338-344 | a concrete interleaving of two requests with a queue of length one |
| `Proxy.Gate.Acquire` | internal/relay/proxy.go:338-355 | a token is taken if and only if the answer is success, whoever leaves is no longer waiting, and a full queue is refused before anything else |
| `Proxy.RefuseAdmission` | internal/relay/proxy.go:88-101 | a full queue is 429 in record and client, a queue timeout 503, a cancellation 499 in the record and 408 for the client |
| `Proxy.Respond` | internal/relay/proxy.go:173-335 | record, bucket and client are those of the response run: success, failed, canceled, or none after a failed write |
| `Proxy.Converse` | internal/relay/proxy.go:128-173 | the body's chunks are sent up to a failure; a failed send is recorded, counted and answered as no_available_node, otherwise the response run decides |
| `Proxy.WithSlot` | internal/relay/proxy.go:122-173 | the pending table is as before, and what Converse promises |
| `Proxy.WithToken` | internal/relay/proxy.go:103-173 | the node's slots are as before; record, bucket and client are those of the first of no node, no slot, node unreachable, or else of the response run |
| `Proxy.ExitIsHonest` | internal/protocol/errors.go:29-58 | no exit records a code with a status that is not the code's |
| `Proxy.HandleProxy` | internal/relay/proxy.go:53-174 | by every exit the gate, the node's slots and the pending table are as before; each exit has its number in record and client and one more in its bucket: 429, 503, 499 or 408 from the queue, 404, 422 or 503 without a node, 503 for a lost slot or connection, and otherwise those of the response run |
| `Proxy.BusyAndCanceled` | internal/relay/proxy.go:358-373 | two exits at an input: waiting in vain is no_available_node with 503, canceled in the queue is 499 in the record and 408 for the client |
| `Passage.PassageIsHandleProxy` | internal/relay/proxy.go:53-174 | what HandleProxy promises is what one request's own actions do to the admission machine |
| `Agent.Agent.HandleRequest` | internal/agent/agent.go:127-179 | accepts if and only if the path is allowed, the length is between 0 and the limit, the agent is not draining and a token is free; each refusal has its own condition in that order; a refusal changes nothing, an acceptance adds one token and one fresh entry |
| `Agent.Agent.RouteFrame` | internal/agent/agent.go:182-197 | a frame reaches the entry of its id and no other |
| `Agent.Agent.FinishRequest` | internal/agent/agent.go:201-206 | entry, done flag and token of the request, nothing else |
| `Agent.HandleRequestIsTwoSteps` | internal/agent/agent.go:127-179 | what HandleRequest promises is the machine's message step and, after acceptance, its listing step |
| `Agent.FinishIsTwoSteps` | internal/agent/agent.go:201-206 | what FinishRequest promises is the machine's two deferred steps |
| `Agent.Agent.CancelRequest` | internal/agent/agent.go:342-352 | exactly the entry of the id is canceled |
| `Agent.Agent.CancelAll` | internal/agent/agent.go:355-365 | exactly the entries whose id is the truncated hash of an active id are canceled |
| `Agent.CancelByNameReaches` | internal/agent/agent.go:342-352 | a cancel naming a UUID reaches exactly the request of that UUID |
| `Agent.CancelAllReaches` | internal/agent/agent.go:355-365 | cancelAll reaches every active request if and only if truncated SHA-256 maps the set of active ids onto itself |
| `Agent.CancelAllMisses` | internal/agent/agent.go:355-365 | a hash and an active id for which it cancels nothing |
| `Agent.ReachableAgent` | internal/agent/agent.go:127-206 | table, tokens and read loop agree after every interleaving |
| `Agent.AgentNests` | internal/agent/agent.go:154-206 | entries <= tokens <= limit at every step; both zero when all requests are over |
| `Agent.DrainAdmitsNobody` | internal/agent/agent.go:146-153 | over every run: once the agent drains no further request gets a token, tokens only fall, and they and the table are empty when the requests running then are over |
| `Agent.FrameFindsItsEntry` | internal/agent/connector.go:304-315 | when the read loop is ready for a frame, its request has an entry, its own, if and only if it was accepted and has not finished |
| `AgentDemux.NonInterference` | internal/agent/agent.go:182-197 | in any run of all requests on the agent, each body is where its own frames, cancels and steps alone would have taken it |
| `AgentDemux.FrameReachesEntry` | internal/agent/agent.go:182-197 | a body frame reaches the listed entry of its id, a cancel the listed entry it names, and no other entry changes |
| `AgentDemux.EveryBodyIsItsOwn` | internal/agent/agent.go:182-197 | for all requests at once: if the frames that come for a request are some of those sent, in order, a body that is handed on is the body sent |

## Left out

- Sockets, TLS, the WebSocket library, HTTP, JSON, SQLite, X.509 and process control are calls into code that is
  not here; a message is delivered whole or not at all. One connection delivers in the order sent; where a
  result needs an order, it says so.
- The admin API, the web UI, the certificate tools, configuration loading and the deployment scripts are not
  modelled, nor are capability probing, URL joining, header and path whitelists and the reconnect backoff: each is
  settled by reading one branch. Whether a path is allowed is an input of `HandleRequest`.
- The ring buffer and summary writer behind RecentRequests, request timing fields and the agent's own statistics.
- `writeControl` and `WriteFrame` serialise writers with a mutex; the model has one write as one step.
- SHA-256 is a parameter of which nothing is assumed. String comparison and ids are byte-wise, as in Go.
- Request ids are taken to be distinct; they are random UUIDs, and `UuidsStayDistinct` carries that over to the
  16-byte form.
- Admission.SlotsCounted: a node that starts draining between Select and Reserve is still reserved, as in the source; no
  claim is made that a draining node takes no new request.
- Scheduler.Select: modelled on one snapshot of the registry. In the source state, capacity, model support and load are
  read one after another, so a concurrent change can fall between them.
- Scheduler.LeastLoaded: loads are compared over the reals, so two different ratios that round to the same float64 are
  told apart here and tie in the source.
- Directory.ModelDirectory: modelled on one snapshot, while the source reads a node's state and its models under two
  separate locks.
- Lifecycle.KickNode: undisturbed in this contract; its five sections interleave freely in the lifecycle machine. The
  bye it sends, which makes the agent leave, is one of the reasons for a disconnect.
- Lifecycle.Teardown: undisturbed in this contract; its four steps interleave freely in the lifecycle machine.
- Header maps, trailers, flushes, statuses outside 200-999 and the bytes of a partly failed client
  write are not modelled; a failed write counts as having written nothing.
- Response.StatusFollowsAgent: for agents whose headers, if any, all say the same status, as those of this agent do.
- Response.Forwarder.ForwardResponse: the first-token and idle timers may fire whenever they are armed, so nothing depends on how
  long they were; the request deadline is one of the reasons for the context branch.
- Demux.NonInterference: a read loop that found an entry just before its removal and then offers a frame to it is
  modelled in `Response` (the closed entry) and not in `Demux`, where messages no longer find a closed entry.
- Demux.EndToEnd: speaks of responses whose upstream was read to its end; a failed read ends in the error branch, which
  `PostedErrorDecides` and `ErrorBodyAfterData` describe. What the agent does after a reconnect is any loss,
  delay or reordering of its messages.
- Upstream.ServeResponse: starts at the response headers; the errors before them (assembly, building the request, the call
  to the local model) send one error message each.
- Health.Monitor.OnTick: one step, where the source reads the heartbeat, reads the state and sets the state in three
  sections; a heartbeat between them leaves the node Suspect until its next one.
- Health.ClosedInWindow: ticks come exactly one period apart; the ticker's jitter and the read deadline of the
  connection, 2T + 5 s, which may end it earlier, are not modelled.
- Scheduler.WaitForNode: the context is looked at after a busy poll, where the source selects between it and the pause;
  how late a pause returns is an input.
- Lifecycle.OwnershipHolds: for runs in which every section of every kick is well aimed; that this is exactly when it
  can hold is `SoundExactly`. What holds in all runs is `BaseReachable`.
- Proxy.HandleProxy: one request with nothing else going on; interleavings of many are the subject of `Admission`, and
  `PassageIsHandleProxy` ties the two.
- Admission.WaitingBounded: requests between check and increment are bounded by a parameter k, because the source puts no
  bound on them.
- Agent.CancelAllMisses: a statement about some hash; that SHA-256 has no small cycle among active ids cannot be proved
  here. The agent's grace period when draining, which ends in the same `cancelAll`, is not modelled.

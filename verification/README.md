# smf in Dafny

smf is an RPC runtime (a client, a server and a 16-byte wire header of its own) and a stub
compiler. This project models the runtime as machines over its continuations, since one core runs
one continuation at a time, and proves what holds over every interleaving of them; beside it stand
the stub compiler's ids, printer and generators, and two small protocols of the tools.

`dafny verify dfyconfig.toml` verifies the whole project.

| file | what it holds |
|---|---|
| `Bytes.dfy`, `Wire.dfy` | fixed-width integers; header, frame writer, frame reader and their round trip |
| `Stream.dfy` | one direction of a connection: writers with a stage each behind a FIFO semaphore, frames written in pieces of any size, and an alternating reader |
| `Filters.dfy` | the filter fold, the compression filters and the lz4 size prefix |
| `WireObject.dfy` | streams, connections, letters and the lz4 buffer as objects updated in place |
| `Client.dfy`, `ClientRuns.dfy`, `ClientObject.dfy` | the client machine, its theorems, and `rpc_client` as a class that performs its steps |
| `Rpc.dfy`, `RpcProofs.dfy`, `EndToEnd.dfy`, `Reachability.dfy`, `RpcSteps.dfy`, `Isolation.dfy` | client, any number of successive connections, byte streams and server jobs together |
| `Server.dfy`, `ServerRuns.dfy`, `ServerSteps.dfy`, `ServerObject.dfy` | the server machine, its conservation laws, the way of a request through it, and `rpc_server` as a class that performs its steps |
| `Ids.dfy` | method id strings, request ids and routing |
| `Printer.dfy`, `Nesting.dfy` | placeholder substitution and when it ends, indentation, nesting of braces |
| `Schema.dfy`, `Templates.dfy`, `Emitter.dfy` | names, templates split at their placeholders, braces and newlines, and printing with an account of the open braces |
| `CppTemplates.dfy`, `CppGenerator.dfy`, `GoTemplates.dfy`, `GoGenerator.dfy`, `PythonTemplates.dfy`, `PythonGenerator.dfy` | the print functions of the three generators as operations on the printer object |
| `Barrier.dfy`, `Backoff.dfy` | the benchmark barrier and the reconnect backoff |

XXH64, the block compressors and CRC-32 are function parameters. The laws asked of a codec are
`Filters.Sound` and `Filters.BlockSound`; nothing is asked of the hash or of the CRC. Timeouts,
socket errors, handler outcomes and the arrival of bytes are events that may occur at any point of
a run. An exception is a `None`, a `false` or an event of its own.

## Where a promised property needs a condition

- A send whose 16-bit session is still in use is never settled, and a reply to it settles the
  older send. `ClientRuns.ExactlyOneState` says that this happens exactly to the sends that find
  their slot occupied, `ClientRuns.SlotTaken` when a slot is occupied, `ClientRuns.WindowFree` that
  a window of fewer than 65536 sends prevents it, and `ClientRuns.CollisionReachable` that it can
  occur.
- A reader left behind by a timeout can disable a later connection: `Isolation.LateReaderReachable`
  gives the run, `Isolation.ReadLeavesClient` says exactly when a read leaves the client alone, and
  `Isolation.RunIsolated` that without such readers only the current connection's own events, a
  failed write and `stop()` can end it. `EndToEnd.RepliesMatch` admits left-over readers and shows
  that a stale reply never settles a later send, as long as no send is given the session of a request
  still in flight; `EndToEnd.WindowSuffices` shows that a window of 65536 sends guarantees this.
- `dispatch_rpc` takes the payload size as a signed 32-bit integer. A size of 2^31 or more is
  signalled as a negative number: `ServerRuns.MemoryConserved` states conservation for all sizes
  with the loss as a term and shows that the loss is absent exactly when no such size has been
  signalled; `ServerRuns.OversizeRequestStarves` and `ServerRuns.StarvedForever` show that one such
  request makes a server with the default limit admit nothing ever again.
- `active_connections` is decremented by the clean-up and by the destructor: it is the number of open
  connections exactly until the first one is destroyed (`ServerRuns.ActiveExact`), and then wraps
  below zero (`ServerRuns.ActiveUnderflows`, with a run in `ServerRuns.UnderflowReachable`).
- A body whose checksum is zero can never be received (`Wire.SealedAcceptable`).
- The substitution loop of the printer may turn for ever (`Printer.SelfReferenceLoops`). It ends on
  every template if no value holds two escape characters (`Printer.BoundedEnds`); for values made of
  text and known placeholders it ends on every template exactly when the keys can be ranked
  (`Printer.EndsIffRanked`).
- A method whose id equals its service's id has request id zero, which the server refuses:
  calls of exactly these methods never arrive (`Router.UnreachableMethod`).
- The lz4 codec refuses to restore the empty input (`Filters.Lz4RoundTrip`); no filter compresses it.

## Model

| member | source | states |
|---|---|---|
| `Wire.HeaderRoundTrip` | src/core/rpc.fbs:31-61 | decoding the 16 bytes of any header gives the header back, with the signed compression flag |
| `Wire.BytesRoundTrip` | src/core/rpc.fbs:31-61 | encoding what 16 bytes decode to gives the bytes back, so the layout is a bijection |
| `Wire.HeaderLayout` | src/core/rpc.fbs:31-61 | byte 0 is the flag, byte 1 the bit field, bytes 2-3 the session, 4-7 the size, 8-11 the checksum and 12-15 the meta, each least significant byte first |
| `Wire.ParseEncoded` | src/core/rpc_recv_context.cc:47-124 | a complete frame at the head of any input is delivered, with `disabled` rewritten to `none`, exactly when it passes all checks, and leaves the rest unread |
| `Wire.ParseTruncated` | src/core/rpc_recv_context.cc:47-124 | a frame cut short at any byte is never delivered |
| `Wire.ParseSound` | src/core/rpc_recv_context.cc:47-124 | every successful parse of any bytes consumed exactly the encoding of one acceptable envelope |
| `Wire.FrameVerdict` | src/core/rpc_recv_context.cc:47-124 | check by check and with the numbers written out, exactly which complete frames are delivered and as what, the checksum being the hash modulo 2^32 |
| `Wire.DeliveredIntact` | src/core/rpc_recv_context.cc:66-76 | from any input, only a payload whose hash agrees with its header's checksum modulo 2^32 is ever delivered |
| `Wire.ParsePrefix` | src/core/rpc_recv_context.cc:47-124 | the reader on the first n bytes of any concatenation of framed envelopes delivers exactly the complete acceptable ones before the first failure |
| `Wire.RoundTrip` | src/core/rpc_envelope.cc:17-33 | any sequence of acceptable envelopes, sent and read, comes back whole and in order, and every strict prefix of the bytes loses some |
| `Wire.SealedAcceptable` | src/include/smf/rpc_header_utils.h:11-21 | a sealed envelope with a non-empty body within the size limit, known flags and a nonzero meta is receivable exactly when its checksum is not zero |
| `Wire.SealIs` | src/include/smf/rpc_header_utils.h:11-21 | size and checksum become the length and the hash of the body modulo 2^32, and no other field changes |
| `WireObject.SendEnvelope` | src/core/rpc_envelope.cc:17-33 | header then body are appended to the stream and nothing else |
| `WireObject.RpcConnection.SetError` | src/include/smf/rpc_connection.h:57-65 | an error invalidates the connection for good and keeps the history of errors |
| `WireObject.RpcConnection.Disable` | src/include/smf/rpc_connection.h:41-52 | the connection is no longer enabled and therefore invalid |
| `WireObject.RpcConnection.ParseHeader` | src/core/rpc_recv_context.cc:81-124 | reads sixteen bytes, delivers what the validation allows and leaves the active-parser count as it was |
| `WireObject.RpcConnection.ParsePayload` | src/core/rpc_recv_context.cc:47-79 | reads the announced bytes and delivers them exactly when size, flags and checksum agree, as `Wire.FrameVerdict` spells out |
| `WireObject.RpcConnection.ReadOne` | src/core/rpc_client.cc:219-254 | one turn of the reader is `ParseFrame`, and a failure marks the connection |
| `WireObject.RpcConnection.ReadLoop` | src/core/rpc_client.cc:255-272 | the read loop delivers what parsing the whole input gives and ends with an error |
| `WireObject.SendThenRead` | src/core/rpc_envelope.cc:17-33 | the writing loop followed by the reading loop returns the envelopes sent |
| `WireObject.Letter.ChecksumRpc` | src/include/smf/rpc_header_utils.h:16-21 | size and checksum are congruent to the body's length and hash modulo 2^32 |
| `WireObject.Letter.CompressionFilter` | src/core/lz4_filter.cc:16-33 | a letter with a flag, or a body of at most the threshold, stays as it is; any other gets the body its codec makes and flag 2 or 3, or the codec's exception |
| `WireObject.Letter.DecompressionFilter` | src/core/zstd_filter.cc:35-45 | only the filter's own flag, 2 or 3, is acted on: the body becomes what its codec restores and the flag 0 |
| `WireObject.Lz4Compress` | src/core/compression.cc:104-127 | the buffer filled in place holds the little-endian size and then the block |
| `Stream.StepInv` | src/core/rpc_client.cc:174-194 | every step of any writer or of the reader keeps: writers before the current one have left and those after it wait, the bytes are whole frames plus a prefix of the holder's, and the reader stands on a frame boundary or behind a header |
| `Stream.AtMostOneWriter` | src/core/rpc_client.cc:184-191 | two writers past the semaphore are the same writer, and it is the first that has not left |
| `Stream.FramesInOrder` | src/core/rpc_server.cc:290-295 | for any number of writers, each with its own wait, writes in pieces of any size and release, in any interleaving: at most one holds the semaphore, the bytes are whole frames in the order of the waits followed by a proper prefix of the next frame, and what was delivered is what the frames passed decode to, in order |
| `Stream.ReaderRefinesParse` | src/core/rpc_recv_context.cc:47-124 | the incremental reader never delivers anything but a prefix of what parsing all bytes at once gives |
| `Stream.WriteThrough` | src/core/rpc_envelope.cc:17-33 | the holder's remaining write and release complete exactly its own frame, and the next waiter, if any, holds the semaphore |
| `Stream.ReadThrough` | src/core/rpc_recv_context.cc:47-124 | in every reachable stream with a complete acceptable frame ahead, whatever the writers are doing, the next two reads deliver it |
| `Filters.AtMostOneCompresses` | src/core/lz4_filter.cc:16-33 | any list of outgoing filters with any thresholds leaves the envelope alone or compresses its body exactly once |
| `Filters.FirstFilterDecides` | src/core/lz4_filter.cc:20-33 | for any filter list the first one whose threshold is below the body's length decides: its codec makes the body, under flag 2 or 3, or throws; without such a filter nothing changes |
| `Filters.InUndoes` | src/core/zstd_filter.cc:35-45 | any list of incoming filters containing the matching decompressor restores the body with flag none, size and checksum |
| `Filters.Pipeline` | src/include/smf/rpc_filter.h:18-37 | outgoing and then incoming filters give the original back with flag none exactly when the matching decompressor is present, never throw on the way in, and keep size and checksum right |
| `Filters.Lz4RoundTrip` | src/core/compression.cc:104-154 | the size-prefixed codec restores every input it compresses except the empty one |
| `Filters.Lz4Sound` | src/core/compression.cc:104-154 | it therefore meets the law that the pipeline asks of a codec |
| `Client.StepInv` | src/core/rpc_client.cc:83-254 | every continuation keeps: slots hold unset promises of their own session, outstanding requests imply a current, enabled, error-free connection and an open gate, and the counters fit |
| `Client.RunInv` | src/core/rpc_client.cc:83-254 | the same over every run |
| `ClientRuns.SettledOnce` | src/core/rpc_client.cc:196-254 | no promise is set twice: a settled one keeps its outcome for the rest of any run |
| `ClientRuns.RunLost` | src/core/rpc_client.cc:91-101 | the sends that are neither settled nor pending are, in every run, exactly those that collided |
| `ClientRuns.ExactlyOneState` | src/core/rpc_client.cc:91-101 | every accepted send is pending, resolved or failed, and only one of these, if and only if it did not collide |
| `ClientRuns.StopSettles` | src/core/rpc_client.cc:65-70 | after stop the slots are empty, every send that did not collide is settled and no send is accepted |
| `ClientRuns.RunValuesMatch` | src/core/rpc_client.cc:240-251 | a promise is only ever resolved by a reply that carries its session |
| `ClientRuns.SlotTaken` | src/core/rpc_client.cc:91-99 | the next session's slot is occupied exactly when a pending send lies a multiple of 65536 sends back |
| `ClientRuns.WindowFree` | src/core/rpc_client.cc:91-99 | with fewer than 65536 sends since the oldest pending one the insertion really inserts |
| `ClientRuns.SlotsBijective` | src/include/smf/rpc_client.h:172-182 | occupied slots and pending sends correspond one to one |
| `ClientRuns.ReadCounter` | src/core/rpc_client.cc:91-92 | on every run `read_counter_` is the number of pending, failed and collided requests modulo 2^64, so failures and collisions are never taken back |
| `ClientRuns.CounterNeverUnderflows` | src/core/rpc_client.cc:232-248 | below 2^64 sends the counter is positive whenever a reply finds its slot, so the decrement does not wrap |
| `ClientRuns.Lifecycle` | src/core/rpc_client.cc:196-217 | outstanding requests imply an enabled, error-free connection and an open gate; a failure empties the slots and invalidates the connection |
| `ClientRuns.InvalidForever` | src/include/smf/rpc_connection.h:41-66 | an invalid connection never becomes valid again |
| `ClientRuns.AcceptsExactly` | src/core/rpc_client.cc:83-101 | a send takes effect if and only if the gate is open and the current connection is enabled, without error and not at the end of its input |
| `ClientRuns.RefusedUntilConnect` | src/include/smf/rpc_connection.h:50-52 | once the current connection is disabled, failed or ended, every send is refused without effect on every run up to the next `connect()` |
| `ClientRuns.GoesDown` | src/core/rpc_client.cc:196-254 | end of input, an error and `fail_outstanding_futures()` bring it down, and a new connection is up |
| `ClientRuns.Reconnects` | src/core/rpc_client.cc:128-140 | from every reachable state reconnecting leaves nothing outstanding, keeps the session numbering and settled promises, and accepts sends on a new connection |
| `ClientRuns.Misdelivery` | src/core/rpc_client.cc:94-101 | after a collision the reply settles the older send and the newer one is lost |
| `ClientRuns.CollisionReachable` | src/core/rpc_client.cc:94-101 | one unanswered request and 65536 further sends produce a collision |
| `ClientRuns.LateReader` | src/core/rpc_client.cc:219-254 | after the continuation of another connection's reader the current connection is still usable exactly if it delivered the reply of a pending request; otherwise every pending request has failed |
| `ClientObject.RpcClient.constructor` | src/core/rpc_client.cc:38-53 | a new client is the initial state of the machine |
| `ClientObject.RpcClient.IsConnValid` | src/include/smf/rpc_client.h:144-147 | agrees with the machine's validity, whose three flags `ClientRuns.AcceptsExactly` names |
| `ClientObject.RpcClient.RawSend` | src/core/rpc_client.cc:83-101 | performs the send step, refuses exactly when gate or connection do, and numbers the work item |
| `ClientObject.RpcClient.FailOutstandingFutures` | src/core/rpc_client.cc:196-217 | disables a valid connection and fails everything outstanding |
| `ClientObject.RpcClient.Drain` | src/core/rpc_client.cc:210-216 | the loop ends with an empty map, having failed exactly the work items in it |
| `ClientObject.RpcClient.ProcessOneRequest` | src/core/rpc_client.cc:223-253 | performs the delivery step in all its branches |
| `ClientObject.RpcClient.Stop` | src/core/rpc_client.cc:65-70 | performs the stop step |
| `ClientObject.RpcClient.Reopen` | src/core/rpc_client.cc:131-137 | performs the middle of reconnect once the gate has drained |
| `ClientObject.RpcClient.Connect` | src/core/rpc_client.cc:142-172 | makes a fresh connection unless the current one is valid |
| `RpcProofs.StepInv` | src/core/rpc_client.cc:83-272 | every step of the whole system keeps: frames belong to accepted sends, replies to jobs that ran, and everything in flight on a usable connection is pending |
| `EndToEnd.RepliesMatch` | src/core/rpc_client.cc:83-172 | in every interleaving, with replies out of order, failures, timeouts, `reconnect()`, `connect()` over a failed connection and readers left over from earlier connections, a promise with a value holds the reply of the job whose handler was given exactly that caller's envelope |
| `EndToEnd.RightMethod` | src/core/rpc_server.cc:249-262 | and with distinct registered ids the only handle the server can select for that job is the method whose id the caller used |
| `EndToEnd.AtMostOnce` | src/core/rpc_server.cc:249-302 | no send is executed by two jobs, on one connection or across connections |
| `EndToEnd.WindowSuffices` | src/core/rpc_client.cc:91-101 | runs that keep within 65536 sends of the oldest one that is pending or in flight meet the condition of the theorems above |
| `Reachability.RunRefines` | src/core/rpc_client.cc:83-272 | the client inside the system runs the client machine, so all its theorems apply |
| `Reachability.RoundTripReachable` | src/core/rpc_client.cc:103-127 | for any request and reply that fit on the wire there is a run in which the caller gets that reply |
| `Isolation.ReadLeavesClient` | src/core/rpc_client.cc:219-254 | a read on any connection leaves the client as it was if and only if its reader is over, the read neither delivers nor ends, or nothing is left to fail |
| `Isolation.LeftoverBreaks` | src/core/rpc_client.cc:219-254 | another connection's reader that gets on takes the current connection and every pending request with it, unless it delivers the reply of a pending one |
| `Isolation.LateReaderReachable` | src/core/rpc_client.cc:261-267 | for every request there is a run, through a timeout and a reconnect, in which the first connection's reader fails the request sent on the second |
| `Isolation.RunIsolated` | src/core/rpc_client.cc:196-272 | on every run without other readers, only the current connection's own reads, a failed write and `stop()` can make it unusable or take a pending request away |
| `RpcSteps.Dispatched` | src/core/rpc_client.cc:103-108 | a request reaches the current connection's writers, behind all others, if and only if the filters did not throw, the gate is open and there is a connection |
| `RpcSteps.TimeoutLeavesReader` | src/core/rpc_client.cc:261-272 | a timeout fails everything outstanding and leaves the reader behind |
| `RpcSteps.LeftoverReadsOnce` | src/core/rpc_client.cc:219-254 | a reader left behind is over with its first delivery or its end, and only then |
| `RpcSteps.ReopensWhenDrained` | src/core/rpc_client.cc:128-140 | `reconnect()` goes on if and only if no request is in the filters, no read loop runs and no writer is left |
| `RpcSteps.LoopEnds` | src/core/rpc_client.cc:261-263 | the read loop ends if and only if the connection is no longer usable |
| `RpcSteps.AnswersOnce` | src/core/rpc_server.cc:276-297 | a job that has been answered or dropped never answers again |
| `Server.Cleanup` | src/core/rpc_server.cc:303-328 | a connection leaves the map exactly if it is there and in error, exactly then it is disabled and counted as bad and no longer active, and nothing else but the completed count changes |
| `ServerRuns.StepInv` | src/core/rpc_server.cc:122-328 | every continuation keeps the memory law, the link between read loops and admissions, and the accounting of connections |
| `ServerRuns.MemoryConserved` | src/core/rpc_server.cc:190-247 | over all connections and interleavings, available, used, abandoned and leaked units add up to the maximum; use never exceeds it; the leak is zero exactly when no size of 2^31 or more was signalled |
| `ServerRuns.SettledOnce` | src/core/rpc_server.cc:224-247 | an admission is signalled or abandoned at most once |
| `ServerRuns.StarvedForever` | src/core/rpc_server.cc:193-196 | with negative units and nothing in use no request is admitted in any continuation of the run |
| `ServerRuns.OversizeRequestStarves` | src/core/rpc_server.cc:225-231 | one refused request of 2^31 bytes brings a default server into that state |
| `ServerRuns.ConnectionsAccounted` | src/core/rpc_server.cc:303-328 | for fewer than 2^64 connections, total connections are the open ones plus the bad ones; active is total minus bad minus destroyed; a finished read loop has left the map; a connection is enabled exactly while it is in the map |
| `ServerRuns.ClosedOnce` | src/core/rpc_server.cc:306-313 | a connection that has left the map never comes back, so it is counted once |
| `ServerRuns.ActiveExact` | src/include/smf/rpc_server_connection.h:64-83 | below 2^64 connections `active_connections` is the number of open ones if and only if none has been destroyed |
| `ServerRuns.ActiveUnderflows` | src/include/smf/rpc_server_connection.h:79-83 | when all connections are gone `active_connections` is minus their number modulo 2^64 |
| `ServerRuns.UnderflowReachable` | src/core/rpc_server.cc:303-318 | one connection whose input ends leaves it at 2^64 - 1 |
| `ServerSteps.GoodPayload` | src/core/rpc_server.cc:232-247 | a good payload under an open gate is dispatched: its units stay taken and the connection reads on unmarked |
| `ServerSteps.BadPayload` | src/core/rpc_server.cc:225-231 | a bad payload marks the connection and gives the units back at once |
| `ServerSteps.AbandonedPayload` | src/core/rpc_server.cc:190-208 | at a closed gate or after an exception the units are not given back |
| `ServerSteps.RunsUntilItEnds` | src/core/rpc_server.cc:234-246 | on every run a dispatched job stays one until its own clean-up or exception |
| `ServerSteps.HeldUntilSignal` | src/core/rpc_server.cc:234-246 | on every run its units are in use until its own signal |
| `ServerSteps.JobEnds` | src/core/rpc_server.cc:234-246 | success and exception both give the units back; only success cleans up and counts |
| `ServerSteps.Header` | src/core/rpc_server.cc:184-196 | a header takes its units exactly if nobody waits and enough are free, queues otherwise, and marks the connection if unreadable |
| `ServerSteps.FirstWaiter` | src/core/rpc_server.cc:193-196 | the first waiter is admitted if and only if its units are free |
| `ServerSteps.LoopGoesOn` | src/core/rpc_server.cc:210-222 | the read loop goes on if and only if the connection is enabled, without error and not at the end of its input |
| `ServerSteps.ThrowCloses` | src/core/rpc_server.cc:181-222 | an exception in the read loop takes the connection out of the map |
| `ServerSteps.Accepted` | src/core/rpc_server.cc:122-172 | a new connection is usable under an id never used before, and none is accepted after a stop |
| `ServerSteps.JobErrorCloses` | src/core/rpc_server.cc:252-275 | a request without id, route or decompressor gets its connection closed |
| `ServerSteps.DestroyedExactly` | src/include/smf/rpc_server_connection.h:64-83 | a connection object goes away if and only if it has left the map, its loop is over and no request of it is under way |
| `ServerSteps.ServedInFull` | src/core/rpc_server.cc:181-302 | from every state with an idle usable connection and enough free units, a good request goes all the way and leaves everything as it was but one more completed request |
| `ServerObject.RpcServer.constructor` | src/include/smf/rpc_connection_limits.h:20-31 | a new server has all its units and no connection |
| `ServerObject.RpcServer.AcceptConnection` | src/core/rpc_server.cc:123-133 | performs the accept step with an unused id |
| `ServerObject.RpcServer.HeaderParsed` | src/core/rpc_server.cc:184-196 | performs the header step and takes units exactly when nobody waits and enough are free |
| `ServerObject.RpcServer.DispatchRpc` | src/core/rpc_server.cc:224-247 | performs the payload step, whose three outcomes the members of `ServerSteps` above state |
| `ServerObject.RpcServer.CleanupDispatchRpc` | src/core/rpc_server.cc:303-328 | performs the clean-up |
| `ServerObject.RpcServer.JobDone` | src/core/rpc_server.cc:237-245 | cleans up unless the job threw and signals its units in either case |
| `Ids.MethodStringInjective` | src/smfc/smf_method.h:22-26 | two calls with equal id strings have equal names and equal input and output paths, at any namespace depth |
| `Ids.RequestIdIs` | src/smfc/smf_method.h:18-27 | the request id with the service's id taken out is the hash of name, input type and output type joined by colons |
| `Ids.JoinConcat` | src/smfc/smf_method.h:50-55 | joined paths are joined by "::", at any split |
| `Ids.SharedIdIsCollision` | src/smfc/smf_method.h:18-27 | two methods of a service share a request id exactly when their signatures are equal or CRC-32 collides on different ones |
| `ServiceObject.SmfService.constructor` | src/smfc/smf_service.h:15-24 | the loop computes, for every call, the request id that switch and clients use |
| `Router.MethodForRequestId` | src/smfc/cpp_generator.cc:121-145 | the generated switch yields the first method with the id, or none if there is none |
| `Router.RpcHandleRouter.RegisterService` | src/core/rpc_handle_router.cc:16-20 | every request that had a handle keeps it, and every method of the new service answers to its id |
| `Router.RpcHandleRouter.GetHandleForRequest` | src/core/rpc_handle_router.cc:7-14 | yields the first match in registration order, and none exactly when no method answers |
| `Router.DispatchAgrees` | src/core/rpc_handle_router.cc:7-20 | with distinct ids every registration order yields the same handle |
| `Router.RouteCall` | src/smfc/cpp_generator.cc:281-291 | the id a generated client sends is routed to exactly its own method |
| `Router.SelectHandle` | src/core/rpc_server.cc:252-262 | id zero and ids without a route are refused, any other gets the first match |
| `Router.UnreachableMethod` | src/core/rpc_server.cc:252-262 | with distinct ids a call is given its own method if and only if the method's id differs from its service's, and is refused otherwise |
| `Printer.ReplaceCount` | src/smfc/smf_printer.h:19-29 | each turn removes two escape characters and adds those of the value |
| `Printer.IterateIsExpand` | src/smfc/smf_printer.h:15-29 | for values without escapes the loop, which starts over each time, equals one left-to-right pass that stops at the first unclosed or unknown placeholder |
| `Printer.BoundedEnds` | src/smfc/smf_printer.h:19-29 | the loop ends, within as many turns as the template has escapes, if no value holds two |
| `Printer.EndsIffRanked` | src/smfc/smf_printer.h:19-29 | for values made of text and known placeholders the loop ends on every template if and only if the keys can be ranked so that values mention lower ones only |
| `Printer.SelfReferenceLoops` | src/smfc/smf_printer.h:19-29 | a value that is its own placeholder is replaced by itself for ever |
| `Printer.LinesConcat` | src/smfc/smf_printer.h:33-50 | the lines put together are the text |
| `Printer.LinesShape` | src/smfc/smf_printer.h:33-50 | each line ends at its newline and has no other |
| `Printer.UnindentIndented` | src/smfc/smf_printer.h:33-50 | removing the indentation of the output gives the text back |
| `Printer.IndentedLength` | src/smfc/smf_printer.h:33-50 | the output grows by the text plus the indentation of each of its lines |
| `Printer.SmfPrinter.Substitute` | src/smfc/smf_printer.h:15-29 | on every input on which the loop ends, it ends with the one string that repeated replacement leaves, in which nothing can be replaced |
| `Printer.SmfPrinter.PrintText` | src/smfc/smf_printer.h:33-50 | the loop appends the indented text and nothing else |
| `Printer.SmfPrinter.Padding` | src/smfc/smf_printer.h:38 | as many fill characters as the level times the step, and nothing else |
| `Printer.SmfPrinter.Print` | src/smfc/smf_printer.h:12-31 | what is appended is the substituted template, indented, and for values without escapes the single pass's result |
| `Nesting.PrintNests` | src/smfc/smf_printer.h:12-50 | for names without braces, whatever `print` emits nests braces exactly as the template does, from any depth |
| `Templates.TemplateNests` | src/smfc/smf_printer.h:12-50 | a template changes the depth by its delta exactly if it finds the open braces it needs, and closes too much otherwise |
| `Templates.ExpandIsFill` | src/smfc/smf_printer.h:15-29 | the substitution puts each placeholder's value in its place, up to the first that has none |
| `Schema.DecimalInjective` | src/smfc/cpp_generator.cc:133-135 | printed numbers can be told apart |
| `Schema.Tokens` | src/smfc/cpp_generator.cc:55-75 | the derived names, in camel case or with an underscore |
| `Schema.GuardIsIdentifier` | src/smfc/cpp_generator.cc:18-35 | an include guard is made of letters, digits and underscores, whatever the file name |
| `Emitter.Emit` | src/smfc/smf_printer.h:12-31 | exactly the filled template, indented, is appended; the depth of all that has been printed moves by the template's delta; and no placeholder is left |
| `CppGenerator.PrintServiceConstructor` | src/smfc/cpp_generator.cc:77-119 | for every service, restores the printer's level, never goes below it, and leaves as many braces open as it found; the array gets one handle per method in order, the i-th calling the raw form of method i |
| `CppGenerator.PrintMethodForRequestId` | src/smfc/cpp_generator.cc:121-145 | likewise; between its opening and closing lines there is one line per method in order, with the service's id, method i's id and i in decimal |
| `CppGenerator.CaseLineInjective` | src/smfc/cpp_generator.cc:136-138 | such a line determines the two ids and the position |
| `CppGenerator.LabelIsRequestId` | src/smfc/cpp_generator.cc:136-138 | the label of the i-th case is the request id by which the router finds method i |
| `CppGenerator.PrintServiceHandles` | src/smfc/cpp_generator.cc:147-159 | likewise |
| `CppGenerator.PrintServiceMethod` | src/smfc/cpp_generator.cc:161-210 | likewise, for every method |
| `CppGenerator.PrintService` | src/smfc/cpp_generator.cc:212-259 | likewise, over all methods of every service; constructor and switch are in the text |
| `CppGenerator.PrintClientMethod` | src/smfc/cpp_generator.cc:261-292 | likewise, for every method; its body sets the request id from the two ids in decimal and sends |
| `CppGenerator.PrintClient` | src/smfc/cpp_generator.cc:294-334 | likewise, although the class is closed one level above where it was opened; every method is in the text |
| `CppGenerator.PrintStdOstream` | src/smfc/cpp_generator.cc:335-373 | likewise, with the braces inside string literals counted |
| `CppGenerator.OpenNamespaces` | src/smfc/cpp_generator.cc:427-438 | opens one brace per namespace component |
| `CppGenerator.CloseNamespaces` | src/smfc/cpp_generator.cc:462-481 | closes one brace per namespace component |
| `CppGenerator.Generate` | src/smfc/cpp_generator.h:29-47 | the whole header, for every list of services and methods, restores the printer's level, never goes below it, and leaves as many braces open as it found |
| `CppGenerator.Header` | src/smfc/cpp_generator.h:29-47 | the contents are balanced, hold no placeholder, and hold the dispatch code of every service and method |
| `GoGenerator.PrintServerMethod` | src/smfc/go_generator.cc:21-38 | for every method, restores the printer's level, never goes below it, and leaves as many braces open as it found |
| `GoGenerator.PrintServerJumpTable` | src/smfc/go_generator.cc:40-68 | likewise; one case per method in order, with the two ids in decimal, returning that method's raw form |
| `GoGenerator.PrintServer` | src/smfc/go_generator.cc:69-128 | likewise, over all methods of every service |
| `GoGenerator.PrintClientMethod` | src/smfc/go_generator.cc:130-164 | likewise, for every method; its raw call sends the two ids |
| `GoGenerator.PrintRawCall` | src/smfc/go_generator.cc:156-163 | the text of the raw call, with the two ids in decimal |
| `GoGenerator.PrintClient` | src/smfc/go_generator.cc:166-194 | likewise, over all methods of every service |
| `GoGenerator.Generate` | src/smfc/go_generator.cc:198-234 | the whole file, for every list of services and methods, restores the printer's level, never goes below it, and leaves as many braces open as it found |
| `GoGenerator.Source` | src/smfc/go_generator.cc:198-234 | the contents are balanced, hold no placeholder, and hold the jump table and the raw calls of every service |
| `PythonGenerator.PrintClientMethod` | src/smfc/python_generator.cc:18-35 | for every method, restores the printer's level and never goes below it; the call carries the combined id in decimal |
| `PythonGenerator.CallsItsRequestId` | src/smfc/python_generator.cc:25-31 | which is the request id by which the router finds the method |
| `PythonGenerator.PrintClient` | src/smfc/python_generator.cc:37-61 | likewise, over all methods of every service; every method is in the text |
| `Barrier.StepInv` | src/include/smf/load_generator.h:83-108 | available units and running invokes add up to the concurrency at every step |
| `Barrier.EndAfterAll` | src/include/smf/load_generator.h:103-108 | the end is recorded only after every channel's invoke has finished |
| `Barrier.Completes` | src/include/smf/load_generator.h:83-108 | from every reachable state the benchmark can be brought to its end |
| `Barrier.NeverStuck` | src/include/smf/load_generator.h:92-107 | a benchmark that has not ended can always take a step, and every step brings the end nearer |
| `Backoff.Increment` | src/include/smf/reconnect_client.h:71-93 | the least table entry above the value, the last entry from there on, and zero on wrap-around |
| `Backoff.ReconnectClient.Connect` | src/include/smf/reconnect_client.h:94-118 | after n failures in a row the backoff is entry min(n, 10), it never decreases between successes, and a success resets it |

## Left out

- EndToEnd.RepliesMatch: asks for envelopes as the typed interface builds them (size and checksum filled in, flag none or disabled), for filtered bodies that fit the 32-bit size, and that the session of a new send is neither in use nor that of a request in flight. `connect()` while a `do_reads()` or a write of the failed connection is still under way is not represented: the source then runs two read loops on one connection, and the write goes on with a stream that has been replaced. Since no write is under way when a connection is made, the client's single write semaphore is the one of the current stream.
- Printer.SmfPrinter.Print: strings are taken to be free of NUL characters, and the indentation level to fit 32 bits.
- CppGenerator.Generate: the type `Schema.Name` keeps braces, newlines and the escape character out of names, as identifiers do; the list of system headers is a parameter. The text is stated line by line where it dispatches calls, and elsewhere through the templates it fills. That the level is never below the one at entry is stated by the ghost field `low`, the lowest level reached, which every print function leaves as it was.
- ServerObject.RpcServer.DispatchRpc: a closed gate is the exception that the caller drops; the variant in which it ends the read loop is in `Server.BodyReadStep`.
- ServerRuns.OversizeRequestStarves: uses the default of two gigabytes per core; other limits are covered by `ServerRuns.MemoryConserved`.
- Partial writes that fail: after one, no further bytes of that connection are taken to reach the peer.
- The client's own memory semaphore, histograms, and the byte and request statistics.
- A frame shorter than four bytes given to the lz4 codec, which reads past its end in the source, is refused in `Filters.Lz4Codec`.
- Sockets, TLS, the HTTP admin server, metrics and logging; the debug-only assertions.
- The prologue and the imports of the Python generator, which print plain lines at the level they find.
- The random jitter of the reconnect delay, and concurrent calls of `reconnect_client::connect()`.
- Random numbers, time, histograms, demos, benchmarks and build scripts.

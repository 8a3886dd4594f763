# Verified model of the serving stack

This project models, in Dafny 4.11, the parts of the LLM serving stack that have to be right for every
interleaving, every fragmentation and every input: the two-layer request scheduler, the path of a streamed answer
from the engine to the wire, the framing of HTTP requests, the indexes that must agree with something simpler
(sessions, channels, ports), the generation loop, and the reassembly of streamed input. `dafny verify
dfyconfig.toml` verifies everything.

| files | part of the system | form |
|---|---|---|
| `Scheduler`, `SchedulerInvariant`, `SchedulerTheorems`, `SchedulerReasons`, `SessionRuns`, `WorkQueue`, `Tally` | session and model queues, thread pool, finish-once contexts, gateway counters | step machine over any number of threads; the locked blocks again as a class |
| `EventLoop`, `FunctorQueue`, `TcpConnection`, `HttpResponse`, `StreamPath`, `StreamInvariant`, `StreamTheorems`, `StreamWriter` | functor queue with eventfd, output side of a connection, response header, a streamed response end to end, the stream writer | step machines that compose; the loop thread's queue, connection, response and writer as classes |
| `Utf8Stream`, `Utf8Validity`, `Bytes` | the incremental UTF-8 filter and the encoder | functions, lemmas, loops |
| `HttpHeader`, `HttpFraming`, `Numerals` | Content-Length and request framing | functions, lemmas, loops, a class for the per-connection cache |
| `ByteBuffer`, `BufferUse` | the network buffer and its integers | class over an array, updated in place |
| `Recency`, `SessionManager` | the session table | class with map, list and stored iterators, refining a recency sequence |
| `Poller` | channels, poller, epoll | step machine and classes |
| `UnitAllocator`, `UnitRegistry` | ports, work ids and the key table of the unit manager | functions, lemmas and a class over an array |
| `ServingContext`, `Generation`, `Reasons`, `Options` | one request's context and the generation loop | classes with loops, llama.cpp as an oracle |
| `StreamReassembly` | chunks that arrive out of order | class and lemmas |

How to read the main results:

- **Scheduler.** Every mutex-protected block and every atomic operation is one step of `Scheduler.Apply`; a run is
  any legal sequence of steps of any number of threads, with arrivals and disconnects anywhere. The invariant
  (`SchedulerInvariant.Inv`) says that a queue is running exactly when one drain token exists for its key (in the
  pool, in a worker, or in the hand of a thread about to submit it), that taken followed by pending is what was
  accepted, that an unfinished request is always somewhere, and that the counters agree. Exclusion, order across the
  two queues, termination and settling follow for every run. `SchedulerReasons` says which step of a run makes a
  request finish with which reason, and which tests it passed on its way into the engine.
- **Streaming.** `StreamPath` uses the functor queue of `EventLoop` and the connection of `TcpConnection` as they
  are. Its runs include the writes and ends of other responses on the same connection, which a client gets by sending
  a further request while a stream runs (nothing in serving/http/NetworkHttpServer.cc:130-170 prevents it), and
  disconnects at any time. `StreamTheorems` is about bytes on the wire.
- **Engine runs.** A run keeps the model context it took while arriving requests may drop that context from the
  session. That runs of one session follow one another is not assumed: `SessionRuns` proves it from the scheduler for
  sessions whose requests name one model, and gives the run that breaks it for two models.
- **Results that are not as one might hope.** Where the code does not meet a natural property, the project gives the
  exact condition: the wire of a stream is its transcript if and only if no other response got a byte onto the
  connection and nothing stopped it before the end marker (`StreamTheorems.StreamGrammar`, with
  `StreamTheorems.TwoHeaderBlocks` as the failing run); two engines can run on one session's cache when the session
  names two models (`SessionRuns.TwoModelsOverlap`); a read that completes two HTTP requests dispatches only the first
  (`HttpFraming.KeepsUpIffGradual`); a Content-Length near 2^64 wraps the total
  (`HttpFraming.HugeLengthWraps`); a loop thread that queues before `loop()` may sleep on its own work
  (`EventLoop.StuckIffQueuedEarly`); the UTF-8 filter lets surrogates and some overlong forms through
  (`Utf8Validity.OutputValidIff`); gc can be blinded by a touch that bypasses the manager (`Recency.GcExactIff`);
  disabling what is not enabled registers a channel again (`Poller.LeanKeptIff`); a wrapped work-id counter can
  overwrite a live unit (`UnitAllocator.AllocateKeepsIff`); in stream mode `final_text` holds every piece twice
  (`Generation.Serve`, `ServingContext.RecordedIsTextIff`).
- **Code and documentation.** serving/http/README.md, section 3.1, describes a cache from which complete requests are
  taken; the code takes at most one per read, and the model follows the code. network/src/Buffer.cc:39 speaks of a
  128 KiB overflow area; the array has 1 MiB, and so has the model.

## Model

| member | source | states |
|---|---|---|
| SchedulerTheorems.ReachableKeeps | serving/core/SessionExecutor.cc:28-50 | in every reachable state of every run: `running` iff exactly one drain token for the key, pending work implies `running`, taken ++ pending is what was accepted, pending never exceeds the cap, each request's finish is claimed once, counters agree |
| SchedulerInvariant.StepKeeps | serving/core/EngineExecutor.cc:21-120 | each single step of any thread, arrival or disconnect keeps that invariant |
| SchedulerInvariant.OfferKeeps | serving/core/EngineExecutor.cc:174-199 | accepting a task into a session's or a model's queue, with or without the duty to schedule a drain |
| SchedulerInvariant.TakeKeeps | serving/core/SessionExecutor.cc:58-69 | a drain taking the next task; for a model queue this is where a model task starts |
| SchedulerInvariant.RetireKeeps | serving/core/EngineExecutor.cc:207-213 | a drain that finds nothing gives up `running` and its token in one step |
| SchedulerInvariant.WinKeeps | serving/core/ServingContext.h:116-123 | the party that wins the exchange on `finished` is the only one to go on |
| SchedulerInvariant.RecordKeeps | serving/http/HttpGateway.cc:156-165 | the finish callback moves one request from in-flight to recorded and counts its reason |
| SchedulerInvariant.DisconnectKeeps | serving/http/HttpGateway.cc:344-348 | a connection lost at any moment races to finish its request as cancelled |
| SchedulerInvariant.PickKeeps | serving/core/ThreadPool.cc:33-48 | a worker takes the oldest drain token of the pool |
| SchedulerTheorems.AtMostOnePerKey | serving/core/EngineExecutor.cc:202-219 | in every run at most one engine run is active per model, and one task per session object |
| SchedulerTheorems.StartInSessionOrder | serving/core/EngineExecutor.cc:54-108 | requests of one session object naming one model start there in the order the session accepted them, and in no other, although the session task only enqueues |
| SchedulerTheorems.StepDecreases | serving/core/SessionExecutor.cc:54-81 | every step but an arrival lowers a weighted measure over tasks, tokens and threads |
| SchedulerTheorems.RunsAreFinite | serving/core/SessionExecutor.cc:54-81 | without arrivals no interleaving is longer than that measure |
| SchedulerTheorems.QuiescentIsSettled | serving/http/HttpGateway.cc:351-363 | when nothing can move: queues empty, `running` false everywhere, every request finished and recorded exactly once, nothing in flight |
| SchedulerTheorems.EveryRunSettles | serving/core/EngineExecutor.cc:98-107 | both together, from every reachable state |
| SchedulerTheorems.SomeRunSettles | serving/core/ThreadPool.cc:33-48 | from every state a run to quiescence exists, whichever thread is moved first |
| SchedulerReasons.ReasonsHaveCauses | serving/core/EngineExecutor.cc:54-117 | over every run each recorded reason has its step: Error a malformed request, a full session or model queue, a queue timeout, a missing engine or the engine's error; Length and Stop the engine's, or Stop for an uncancelled request the engine forgot; Cancelled a lost connection, a test that found the request cancelled, or the engine's |
| SchedulerReasons.CancelledMeansDisconnected | serving/http/HttpGateway.cc:344-363 | with an engine that reports Cancelled only for cancelled requests, a request recorded as cancelled has lost its connection |
| SchedulerReasons.CancelledIff | serving/http/HttpGateway.cc:516 | a request is cancelled exactly when its connection has gone down |
| SchedulerReasons.EngineRunsTested | serving/core/EngineExecutor.cc:56-98 | a request is inside the engine only after a step of its thread found it unfinished and a later one found it uncancelled, in time and with an engine |
| SchedulerReasons.CancelledSkipsEngine | serving/core/EngineExecutor.cc:60-64 | a request whose connection went down before never enters the engine |
| SchedulerReasons.ForwardEntry | serving/core/EngineExecutor.cc:27-29 | a request is forwarded to its model only by a session task that found it unfinished |
| SchedulerReasons.ForgottenEntry | serving/core/EngineExecutor.cc:100-107 | a forgotten finish is made up for only when the context was found unfinished after the engine returned |
| SchedulerReasons.StepLogs | serving/http/HttpGateway.cc:156-165 | the log grows only by the request and reason that a thread carries to its finish callback |
| SchedulerReasons.HandlerWaits | serving/http/HttpGateway.cc:361-363 | the handler of a plain request stays with it until it is finished or its connection is down |
| SessionRuns.OneRunPerSession | serving/core/EngineExecutor.cc:97-98 | in every run no two threads are inside the engine for a session whose requests name one model |
| SessionRuns.TwoModelsOverlap | serving/core/SessionManager.cc:16-22 | for any two requests of one session naming two models there is a run with both inside the engine: the session is found by id, whatever the model |
| WorkQueue.TaskQueue.Submit | serving/core/SessionExecutor.cc:26-51 | the object's submit is the step of the machine; rejected iff full; told to schedule iff accepted with nobody running |
| WorkQueue.TaskQueue.Take | serving/core/EngineExecutor.cc:206-216 | the object's pop is the step of the machine |
| WorkQueue.TaskQueue.Arrivals | serving/core/EngineExecutor.cc:174-199 | submissions during a drain never start a second one |
| WorkQueue.TaskQueue.Drain | serving/core/SessionExecutor.cc:54-81 | whatever arrives while tasks run, one drain executes all that was accepted, in order and once, then clears `running` |
| EventLoop.StepKeeps | network/src/EventLoop.cc:116-125 | each push, eventfd write, poll return, swap and call keeps: executed ++ batch ++ pending is the push order, and waiting functors have a wakeup on its way |
| EventLoop.RunKeeps | network/src/EventLoop.cc:71-96 | the same over every interleaving |
| EventLoop.RunSays | network/src/EventLoop.cc:116-175 | what has been queued and executed, and the eventfd counter, are what the labels of the run say |
| EventLoop.ExecutedInPushOrder | network/src/EventLoop.cc:177-190 | in every run the functors executed are the first ones queued, each once, in global order of queueing |
| EventLoop.NoLostFunctor | network/src/EventLoop.cc:116-125 | when the loop is about to poll with work pending, the eventfd counter is positive or a thread is between push and wakeup, if the loop thread queued nothing before `loop()` |
| EventLoop.StuckIffQueuedEarly | network/src/EventLoop.cc:122-124 | that proviso is exact: in every run, a loop about to poll sleeps on waiting, unannounced work iff the loop thread queued before `loop()`, no other thread has queued, and no batch has been swapped out |
| EventLoop.LoopDelivers | network/src/EventLoop.cc:78-92 | from any poll the loop alone gets everything pushed so far executed |
| EventLoop.RunBatch | network/src/EventLoop.cc:186-190 | a swapped-out batch is executed whole and in order |
| FunctorQueue.LoopQueue.QueueInLoop | network/src/EventLoop.cc:116-125 | the loop thread's own push, with a wakeup exactly while functors are called |
| FunctorQueue.LoopQueue.DoPendingFunctors | network/src/EventLoop.cc:177-190 | the batch is executed whole and in order; what its functors queue waits, and the next poll returns at once |
| TcpConnection.StepKeeps | network/src/TcpConnection.cc:86-141 | each send, shutdown, writable event and close keeps the output invariant, whatever write(2) answers |
| TcpConnection.RunKeeps | network/src/TcpConnection.cc:273-301 | the same over every run |
| TcpConnection.RunSays | network/src/TcpConnection.cc:86-124 | over every run: accepted is the payloads handed over while the connection took them, the reset flag is set exactly by a direct write answered by EPIPE or ECONNRESET, and the wire holds as many bytes as the socket took |
| TcpConnection.OutputConservation | network/src/TcpConnection.cc:86-141 | until disconnect, write interest iff bytes wait; unless a direct write was answered by EPIPE or ECONNRESET, wire ++ buffer is all payloads handed over, in order, and every SHUT_WR comes after all of it is on the wire; a drained closing connection is shut down |
| TcpConnection.Connection.SendData | network/src/TcpConnection.cc:86-124 | the imperative form; wire ++ buffer grows by the payload for every answer of write(2) but a reset of a direct write |
| TcpConnection.Connection.BeginShutdown | network/src/TcpConnection.cc:126-133 | only a connected connection starts closing |
| TcpConnection.Connection.ShutdownNow | network/src/TcpConnection.cc:135-141 | SHUT_WR only while nothing waits |
| TcpConnection.Connection.OnWritable | network/src/TcpConnection.cc:273-301 | drains the buffer, switches interest off, and finishes a pending shutdown |
| TcpConnection.Connection.OnClose | network/src/TcpConnection.cc:303-315 | the connection is disconnected and watches nothing |
| HttpResponse.Response.WriteInLoop | serving/http/NetworkHttpTypes.h:105-168 | what the connection has accepted is one header block followed by the data written, in order; a write on a connection that is not up is dropped; a plain response ends the connection, a stream does not |
| HttpResponse.Response.EndInLoop | serving/http/NetworkHttpTypes.h:187-198 | the response ends once and accepts nothing after |
| StreamInvariant.StepKeeps | serving/http/NetworkHttpTypes.h:85-198 | each step of worker, loop thread, other threads, other responses, socket and disconnect keeps the agreement of issued, queued, executed and accepted events |
| StreamTheorems.RunKeeps | serving/http/HttpStreamSession.cc:17-66 | the same over every interleaving |
| StreamTheorems.RunEmits | serving/http/OpenAIStreamWriter.cc:104-118 | the delta texts are the filter fed with the texts emitted before the first finish, one by one, and the reason is that of the first finish |
| StreamTheorems.RunResets | network/src/TcpConnection.cc:104-114 | the connection has met a reset only if some write of the run was answered so |
| StreamTheorems.StreamGrammar | serving/http/OpenAIStreamWriter.cc:129-149 | over every run: the delta texts are what the filter makes of the texts emitted before the first finish; what the connection accepts of a stream is one header block, the comment and a prefix of deltas, one finish and the end marker, in order and once; wire ++ buffer is this stream's and the others' payloads as written, unless a write was answered by a reset; and after SHUT_WR the wire is exactly the transcript iff no other response got a byte accepted and neither another response nor a disconnect stopped the connection before the end marker |
| StreamTheorems.StreamAlone | serving/http/HttpStreamSession.cc:17-66 | so a stream alone on a fresh connection that stays up, without resets, puts exactly header, comment, filtered texts, finish and end marker on the wire |
| StreamTheorems.WireIsPrefix | serving/http/HttpStreamSession.cc:35-52 | whatever disconnects, without others' bytes and resets the wire is a prefix of the transcript |
| StreamTheorems.DisconnectIsFinal | network/src/TcpConnection.cc:303-315 | after a disconnect nothing more reaches the wire, whatever runs on |
| StreamTheorems.StepDisturbs | serving/http/NetworkHttpServer.cc:197-199 | only another response's write or end, or a disconnect, disturbs a stream |
| StreamTheorems.DisturbanceStays | serving/http/NetworkHttpServer.cc:197-199 | and no later step undoes it |
| StreamTheorems.TwoHeaderBlocks | serving/http/NetworkHttpTypes.h:33-36 | a second stream request on the connection puts a second header block and comment into the first stream, since `header_sent` belongs to the response |
| StreamTheorems.SecondRequestSpoils | serving/http/NetworkHttpServer.cc:130-170 | and however the run goes on, the wire is not the transcript |
| StreamTheorems.BytesAloneDoNotTell | serving/http/NetworkHttpTypes.h:105-168 | another response can write the very bytes a cut stream lacks: that the end marker was this stream's is part of the exact condition |
| StreamTheorems.OtherEndCuts | serving/http/NetworkHttpTypes.h:164-167 | a plain response on the connection ends it, and cuts the stream off |
| StreamWriter.Writer.OnChunk | serving/http/OpenAIStreamWriter.cc:102-150 | one delta event per increment, finish event and end marker at the end; the texts so far and the bytes held back are one split of all bytes received; what is flushed at the end is not written |
| Utf8Stream.SplitPrefix | serving/http/OpenAIStreamWriter.cc:37-99 | the loop computes the recursive split, with or without flushing |
| Utf8Stream.AllContinuations | serving/http/OpenAIStreamWriter.cc:77-85 | the inner loop decides whether all needed continuation bytes follow |
| Utf8Stream.SplitExtends | serving/http/OpenAIStreamWriter.cc:104-111 | splitting a prefix and then its leftover with the rest is splitting the whole |
| Utf8Stream.ChunkingInvariance | serving/http/OpenAIStreamWriter.cc:37-111 | for every cut into chunks, texts and leftover are those of one split; the leftover never exceeds three bytes |
| Utf8Stream.PendingIsShort | serving/http/OpenAIStreamWriter.cc:67-75 | what is held back is an incomplete unit of at most three bytes; nothing is held after a flush |
| Utf8Stream.OutputIsUnits | serving/http/OpenAIStreamWriter.cc:37-99 | whatever comes in, the output is a concatenation of complete lead-plus-continuation units |
| Utf8Stream.UnchangedIffUnits | serving/http/OpenAIStreamWriter.cc:87-95 | input passes unchanged iff it is such a concatenation |
| Utf8Stream.OutputIsFixedPoint | serving/http/OpenAIStreamWriter.cc:37-99 | filtering twice is filtering once |
| Utf8Stream.StrayByte | serving/http/OpenAIStreamWriter.cc:60-65 | a byte 80-C1 or F5-FF comes out as EF BF BD |
| Utf8Stream.BrokenCharacter | serving/http/OpenAIStreamWriter.cc:77-92 | so does a lead byte without its continuation bytes |
| Utf8Stream.CutOffCharacter | serving/http/OpenAIStreamWriter.cc:67-75 | a character cut off at the end is held back, or flushed as EF BF BD |
| Utf8Validity.ValidPassesUnchanged | serving/http/OpenAIStreamWriter.cc:53-65 | every string valid under section 4 of RFC 3629 passes unchanged with nothing pending |
| Utf8Validity.OutputValidIff | serving/http/OpenAIStreamWriter.cc:53-65 | the output is valid under section 4 of RFC 3629 iff no overlong, surrogate or too large unit stands where the filter looks |
| Utf8Validity.SurrogatePasses | serving/http/OpenAIStreamWriter.cc:56-57 | a surrogate half passes |
| Utf8Validity.UnicodeToUtf8 | infra-controller/src/StackFlowUtil.cpp:117-139 | fills the caller's array with the encoding and touches nothing after it |
| Utf8Validity.DecodeEncode | infra-controller/src/StackFlowUtil.cpp:117-139 | decoding undoes the encoding of every code point up to U+10FFFF |
| Utf8Validity.EncodeValidIff | infra-controller/src/StackFlowUtil.cpp:117-139 | an encoding is valid under section 4 of RFC 3629 iff the code point is no surrogate |
| Utf8Validity.EncodedTextPasses | infra-controller/src/StackFlowUtil.cpp:117-139 | every concatenation of encodings passes the filter unchanged and decodes to its code points |
| HttpHeader.FindFromIsFirst | serving/http/NetworkHttpServer.cc:145-147 | the separator found is the first one, or there is none |
| HttpHeader.ParseContentLength | serving/http/NetworkHttpServer.cc:23-76 | the line loop computes the header's length, wrapping as size_t does |
| HttpHeader.MatchKey | serving/http/NetworkHttpServer.cc:42-51 | the key is matched in any letter case |
| HttpHeader.ReadNumber | serving/http/NetworkHttpServer.cc:56-69 | blanks are skipped and digits accumulated modulo 2^64 |
| HttpHeader.AccumulateDecimal | serving/http/NetworkHttpServer.cc:62-68 | accumulating the decimal digits of a number gives the number modulo 2^64 |
| HttpHeader.KeySpellings | serving/http/NetworkHttpServer.cc:37-51 | the usual spellings of the key match, others do not |
| HttpHeader.LengthIsRead | serving/http/NetworkHttpServer.cc:23-76 | a length written in a Content-Length line, after any blanks and any other lines, is read as that number modulo 2^64 |
| HttpFraming.WrittenIsWellFormed | serving/http/NetworkHttpServer.cc:144-156 | a header of lines, one of which gives the body's length in decimal, makes a well-formed request: first separator at its end, length read as written |
| HttpFraming.WholeRequest | serving/http/NetworkHttpServer.cc:140-170 | a cache that starts with a whole request gives up exactly that request |
| HttpFraming.PartialRequest | serving/http/NetworkHttpServer.cc:163-165 | part of a request gives up nothing |
| HttpFraming.NoLengthTakesAll | serving/http/NetworkHttpServer.cc:152-170 | a header without a length takes all that has arrived as its body and leaves the cache empty |
| HttpFraming.HugeLengthWraps | serving/http/NetworkHttpServer.cc:163-170 | a length whose total wraps size_t is dispatched at once with what has arrived, and part of its header stays in the cache |
| HttpFraming.OnReadKeeps | serving/http/NetworkHttpServer.cc:130-138 | one read keeps the agreement with what was sent and dispatches one request iff one is complete |
| HttpFraming.AnyFragmentation | serving/http/NetworkHttpServer.cc:130-170 | for any requests with their true length of at least 1 and any cut into reads: dispatched is a prefix of sent, consumed ++ cache is what was received, and the exact number dispatched (sections 6.2 and 6.3 of RFC 9112) |
| HttpFraming.KeepsUpIffGradual | serving/http/NetworkHttpServer.cc:134-137 | every complete request is dispatched after every read iff no read completes two |
| HttpFraming.SecondOfTwoWaits | serving/http/NetworkHttpServer.cc:134-137 | two requests in one read: the second stays in the cache |
| HttpFraming.ConnectionCache.OnMessage | serving/http/NetworkHttpServer.cc:130-138 | the object's cache, consumed bytes and dispatched list are those of the framing function |
| HttpFraming.TakeFront | serving/http/NetworkHttpServer.cc:140-170 | header, body and length of the request in front, including the fallback without a length |
| HttpFraming.FindSeparator | serving/http/NetworkHttpServer.cc:145-147 | the search loop finds the first separator |
| ByteBuffer.Buffer.constructor | network/include/network/Buffer.h:30-37 | empty, with the prepend area in front |
| ByteBuffer.Buffer.Retrieve | network/include/network/Buffer.h:53-60 | drops a prefix of the content |
| ByteBuffer.Buffer.RetrieveAll | network/include/network/Buffer.h:70-73 | drops the content and restores the prepend area |
| ByteBuffer.Buffer.RetrieveAsString | network/include/network/Buffer.h:79-84 | returns and drops a prefix |
| ByteBuffer.Buffer.Append | network/include/network/Buffer.h:88-92 | adds at the end, whatever moving or growing it takes |
| ByteBuffer.Buffer.EnsureWritable | network/include/network/Buffer.h:98-103 | makes room and keeps the content |
| ByteBuffer.Buffer.Unwrite | network/include/network/Buffer.h:114-117 | drops a suffix |
| ByteBuffer.Buffer.Prepend | network/include/network/Buffer.h:232-237 | adds in front |
| ByteBuffer.Buffer.MakeSpace | network/include/network/Buffer.h:252-266 | grows or compacts; the assertion on the reader index holds whenever it is reached |
| ByteBuffer.Buffer.Compact | network/include/network/Buffer.h:257-265 | the overlapping copy in place keeps the content |
| ByteBuffer.Buffer.Enlarge | network/include/network/Buffer.h:253-255 | resizing keeps the content |
| ByteBuffer.Buffer.ReadFd | network/src/Buffer.cc:14-55 | a scatter read adds exactly the bytes read, through the overflow area too; a failed one changes nothing |
| BufferUse.Perform | network/include/network/Buffer.h:53-117 | each operation does to the buffer what it does to a plain sequence |
| BufferUse.Replay | network/include/network/Buffer.h:53-266 | any list of operations leaves the content the plain sequence has |
| BufferUse.AppendInt | network/include/network/Buffer.h:122-140 | big-endian two's complement of 1, 2, 4 or 8 bytes is appended |
| BufferUse.ReadInt | network/include/network/Buffer.h:146-172 | an integer is decoded and dropped |
| BufferUse.FieldByte | network/include/network/Buffer.h:122-140 | byte i of a field is the value divided by the i-th highest power of 256, modulo 256: network order, two's complement |
| BufferUse.FieldRoundTrip | network/include/network/Buffer.h:122-207 | decoding undoes encoding for every value of every width |
| BufferUse.StoreAndLoad | network/include/network/Buffer.h:122-172 | any mixed-width list of integers reads back unchanged |
| Recency.RunShape | serving/core/SessionManager.cc:12-70 | in every run no session is listed twice and the limit holds |
| Recency.CreationEvictsOldest | serving/core/SessionManager.cc:24-36 | a creation at the limit evicts exactly the least recently used session |
| Recency.HoldsMostRecent | serving/core/SessionManager.cc:12-70 | after any requests, touches, closes and outside touches the manager holds the most recently used ids it remembers, as many as the limit allows, in order of use |
| Recency.RunSorted | serving/core/SessionManager.cc:59-70 | with touches through the manager and a monotone clock the list stays sorted by last activity |
| Recency.GcRemovesOnlyRemovable | serving/core/SessionManager.cc:79-128 | whatever touched the sessions, each one gc removes has now - last_active > ttl or is closed, and it stops only at the batch, the end or one that is neither |
| Recency.OrderlyGcIsExact | serving/core/SessionManager.cc:99-128 | in an orderly run gc removes exactly the oldest sessions, as many as have now - last_active > ttl, up to the batch |
| Recency.ActiveSinceUse | serving/core/SessionManager.cc:59-70 | in an orderly run a listed session has been active since each of its uses |
| Recency.FreshSurvivesGc | serving/core/SessionManager.cc:124-128 | so a session used at t and still listed survives every gc at now with now - t <= ttl |
| Recency.GcExactIff | serving/core/SessionManager.cc:99-103 | on any list: it removes as many as it should iff the removable sessions fill the batch from the old end or none stands before one that must stay |
| Recency.OutsideTouchHidesExpired | serving/http/HttpGateway.cc:329 | a touch outside the manager can hide an expired session |
| SessionManager.Manager.Locate | serving/core/SessionManager.h:57-61 | a stored iterator stands at the node of its own key |
| SessionManager.SizeIsLength | serving/core/SessionManager.cc:133 | the list is a duplicate-free permutation of the map's keys, so the two sizes agree |
| SessionManager.Manager.Refresh | serving/core/SessionManager.cc:39-70 | get and touch: refreshed and first, iterator renewed, others in place; unknown ids change nothing |
| SessionManager.Manager.GetOrCreateSession | serving/core/SessionManager.cc:12-37 | map, list and iterators together behave as the recency sequence |
| SessionManager.Manager.EvictIfNeeded | serving/core/SessionManager.cc:130-141 | cuts the sequence at the limit |
| SessionManager.Manager.Erase | serving/core/SessionManager.cc:143-154 | removes one session from both; also close |
| SessionManager.Manager.CollectGarbage | serving/core/SessionManager.cc:72-107 | removes the trailing sessions the abstract walk removes, all of them idle for longer than the ttl or closed, and reports their number |
| SessionManager.Manager.TouchOutside | serving/http/HttpGateway.cc:329 | the time changes, the position does not |
| SessionManager.Manager.PerformAll | serving/core/SessionManager.cc:12-107 | any run of operations behaves as the recency sequence, within the limit |
| Poller.StepKeeps | network/src/Poller.cc:97-160 | one operation: epoll_ctl never fails, an assertion fails iff the caller broke its duty, otherwise the tables still agree |
| Poller.StepEffect | network/include/network/Channel.h:46-65 | event by event, the mask that channel and kernel hold after each operation; a removed channel is in neither table |
| Poller.StepSpares | network/src/Poller.cc:97-160 | no operation touches other channels or descriptors |
| Poller.RunKeeps | network/src/Poller.cc:97-160 | over every run: kernel set = channels at kAdded with current masks, `channels_` = channels not at kNew |
| Poller.FreshRunKeeps | network/src/Poller.cc:35-44 | the same from a poller that knows no channel |
| Poller.PolledIsRegistered | network/src/Poller.cc:79-95 | a polled event carries the channel registered for its descriptor |
| Poller.LeanKeptIff | network/include/network/Channel.h:46-65 | the kernel watches exactly the channels that want something, iff no update finds and leaves an empty mask |
| Poller.PurposefulRunsStayLean | network/include/network/Channel.h:46-65 | so over runs without such updates |
| Poller.EpollPoller.Update | network/src/Poller.cc:97-139 | the imperative form, with the source's assertions |
| Poller.EpollPoller.Unregister | network/src/Poller.cc:141-160 | removal, with the source's assertions |
| Poller.EpollPoller.Perform | network/src/Channel.cc:29-38 | mask change, flag and update together are the step |
| Poller.EpollPoller.FillActive | network/src/Poller.cc:79-95 | every reported event is delivered to its registered channel; the assertions hold |
| UnitAllocator.WorkIdsRepeatIff | unit-manager/src/remote_server.cpp:50-54 | two allocations get one id iff the names agree and the 32-bit counter has come round |
| UnitAllocator.WrittenIds | unit-manager/src/remote_server.cpp:52-53 | how ids and keys are written |
| UnitAllocator.WorkIdIsNoOutPort | unit-manager/src/remote_server.cpp:104-105 | no work id is the key of an output address |
| UnitAllocator.AllocateKeepsIff | unit-manager/src/remote_server.cpp:47-107 | an allocation with two free slots keeps the registry exact iff its id is not held |
| UnitAllocator.ReleaseKeeps | unit-manager/src/remote_server.cpp:109-128 | a release keeps it exact, and changes nothing iff the key holds no unit |
| UnitAllocator.ReleaseUndoesAllocate | unit-manager/src/remote_server.cpp:47-128 | releasing what was just allocated restores bitmap and table |
| UnitRegistry.RunKeeps | unit-manager/src/remote_server.cpp:47-128 | over every run: the bitmap is the disjoint union of two ports per live unit, and live units are those issued and not released since |
| UnitRegistry.IdsNeverRepeat | unit-manager/src/remote_server.cpp:50-54 | ids of a run never repeat within one round of the counter |
| UnitRegistry.PortsConserved | unit-manager/src/remote_server.cpp:118-122 | two slots are taken per live unit |
| UnitRegistry.RegistrationDefinedIff | unit-manager/src/remote_server.cpp:56-66 | the next allocation finds two free slots iff there is room for one more pair |
| UnitRegistry.Registry.TakeSlot | unit-manager/src/remote_server.cpp:57-65 | the scan takes the lowest free slot, or leaves the port unset |
| UnitRegistry.Registry.AllocateUnit | unit-manager/src/remote_server.cpp:47-107 | with two free slots: counter, both scans and both table entries together, output and inference getting the two lowest free ports in this order; without them no unit is issued |
| UnitRegistry.Registry.ReleaseUnit | unit-manager/src/remote_server.cpp:109-128 | -1 for an unknown key or a value of another type, else both slots and both entries cleared |
| ServingContext.RecordedIsTextIff | serving/http/HttpGateway.cc:540-547 | `final_text` is the concatenation of the deltas iff nothing is streamed or no delta has text |
| ServingContext.Context.EmitDelta | serving/core/ServingContext.h:99-114 | ignored after the finish; otherwise recorded, and streamed when streaming |
| ServingContext.Context.EmitFinish | serving/core/ServingContext.h:116-144 | the first reason stands; one finish callback and one finishing chunk, last |
| ServingContext.Context.Interfere | serving/http/HttpGateway.cc:345-348 | other threads can cancel, and finish when not streaming; unless cancelled, nothing changed |
| Generation.ModelContext.Decode | engine/LlamaEngine.cc:157-182 | a batch continues the positions without gap; a failed call leaves the cache |
| Generation.Session.EnsureContext | engine/LlamaEngine.cc:222-242 | the context is kept iff there is one with n_past <= n_ctx - margin, else new and empty |
| Generation.Session.Interfere | serving/http/HttpGateway.cc:303-307 | an arriving request may drop the session's cache at any moment, and does nothing else to it |
| Generation.Leave | engine/LlamaEngine.cc:261-264 | every exit balances the usage and finishes |
| Generation.Pass | engine/LlamaEngine.cc:394-443 | one pass: at most one token decoded, counted and shown, with its four ways out |
| Generation.Loop | engine/LlamaEngine.cc:394-443 | between passes, cache and texts are exactly those of the tokens made so far; the reason fits how the loop was left |
| Generation.Generate | engine/LlamaEngine.cc:364-447 | tokens decoded are the sampler's choices, at most the limit; at most the last one's piece is missing, and only when cancelled; the reason fits the ending |
| Generation.Prepare | engine/LlamaEngine.cc:266-322 | all exits before the prompt; the run takes the session's context with what it holds, or a new and empty one |
| Generation.FeedPrompt | engine/LlamaEngine.cc:324-362 | the prompt's tokens extend the context taken, or nothing does |
| Generation.SampledToTheEnd | engine/LlamaEngine.cc:394-446 | a run ended by an end-of-text token or the limit made exactly the greedy continuation |
| Generation.RunWith | engine/LlamaEngine.cc:324-447 | on the context taken: tokens = held ++ prompt ++ made, each token made the sampler's choice; uncancelled without error: made is the greedy continuation |
| Generation.RunOn | engine/LlamaEngine.cc:248-447 | every exit: finished, total = prompt + completion, positions in order; completion at most max_tokens (1 if that is not positive, 512 if there is none), and exactly that on Length; an error has one of its causes; the results hold of the context the run took, which is the session's or dropped from it by the gateway |
| Generation.Run | engine/LlamaEngine.cc:248-259 | the same for a request without a session, which finishes with an error |
| Generation.Serve | engine/LlamaEngine.cc:364-446 | the same bounds; uncancelled, not streaming: `final_text` is the concatenation of the pieces of the decoded tokens; streaming: each piece twice |
| Generation.ServeAll | serving/http/HttpGateway.cc:303-307 | over any sequence of runs and gateway resets, in every context used positions are 0, 1, 2, ... and `n_past` is their number |
| StreamReassembly.Reassembler.DecodeStream | infra-controller/src/StackFlowUtil.cpp:142-157 | waiting, text or exception, as the buffered indices decide |
| StreamReassembly.Reassembler.Receive | node/test/src/main.cpp:174-192 | with the caller's clearing, outcome and buffer are those of the step |
| StreamReassembly.FailureDrops | node/test/src/main.cpp:184-192 | an unreadable index, or an end with a gap, drops what was buffered |
| StreamReassembly.TrueEnds | infra-controller/src/StackFlowUtil.cpp:148-149 | "true" and no text end a message, "false" does not |
| StreamReassembly.GaplessIff | infra-controller/src/StackFlowUtil.cpp:150-152 | the loop meets no missing index iff the indices are exactly 0..k-1 |
| StreamReassembly.MessageDecodes | infra-controller/src/StackFlowUtil.cpp:142-157 | decoding succeeds iff so; the text is the latest delta of each index in index order; the buffer is empty afterwards either way |
| StreamReassembly.ArrivalOrderIrrelevant | infra-controller/src/StackFlowUtil.cpp:147 | the same pieces with distinct indices decode alike in any order of arrival |
| StreamReassembly.OrderedMessage | infra-controller/src/StackFlowUtil.cpp:149-154 | deltas sent as 0, 1, ... with the last marked true come out as their concatenation |
| StreamReassembly.MessagesAreIndependent | node/test/src/main.cpp:184-192 | over any sequence of messages, a failed one spoils none after it |

## Left out

- llama.cpp, tokenisation, chat templates and sampling: parameters of `Generation.Oracle`; the greedy sampler is a function of the cached tokens.
- Socket, epoll and eventfd system calls: their results are parameters or nondeterministic; a write reports any count up to what it was given.
- JSON parsing and rendering, HTTP routing, error bodies: requests are modelled with their fields extracted, events through an arbitrary rendering function. A JSON request whose fields have the wrong type makes a handler throw, which leaves `in_flight_` raised; the model covers well-typed requests and those answered with 400.
- Thread-pool and loop shutdown, destructors, object lifetimes: properties are for runs before stop.
- Wall clock: the queue-wait timeout is a nondeterministic branch of a model task; session times are parameters.
- ZeroMQ transport, `Connector`/`TcpClient`, `EventLoopThreadPool`, `ExecuteAndWait`, `forceClose`: plumbing, unused, or easy.
- `is_prefix`, `diff_messages`, health and metrics handlers: easy members.
- An engine that throws inside a model task: the original does not catch it.
- The input side of a connection beyond `readFd` and the HTTP cache.
- SchedulerInvariant.WinKeeps: `finish_reason` is written after `finished` is set (serving/core/ServingContext.h:119-123), so nothing is claimed about the reason a waiter reads in between.
- StreamTheorems.StreamGrammar: EPIPE or ECONNRESET on a direct write loses bytes, as in the original, so its claims about the wire are for runs without one. Whose bytes are whose is part of the claim: another response that happens to write the very bytes a cut stream lacks does not complete it.
- HttpResponse.Response.WriteInLoop: the header block is one given text; its fields and defaults are not modelled.
- StreamWriter.Writer.OnChunk: the original never calls it after the finishing chunk, which is its precondition here.
- HttpFraming.AnyFragmentation: needs lengths of at least 1, since without one the original takes whatever has arrived.
- SessionManager.Manager.CollectGarbage: the original advances a reverse iterator and then erases the node it stands on (serving/core/SessionManager.cc:95-96); the model walks as intended, by position from the old end. Sessions are values of the table: what a holder of an evicted session does with it is not modelled.
- SchedulerTheorems.AtMostOnePerKey: a session key stands for one session object; after an eviction a new object with the same id has its own queue, and exclusion and order are per object.
- Recency.HoldsMostRecent: for runs without gc, which removes by age and not by use.
- Poller.RunKeeps: descriptors stay open while registered; the kernel's silent removal of a closed descriptor is not modelled.
- UnitRegistry.RunKeeps: runs of allocate and release with fewer than 2^32 + 1 allocations; `sql_set` and `sql_unset` on a unit's key are not part of these runs. Addresses stand for their ports: the sprintf and sscanf of the address text are not modelled.
- UnitRegistry.Registry.AllocateUnit: without two free slots the original goes on with a port it never set; the model stops there.
- Generation.RunOn: runs of one session follow one another, which `SessionRuns.OneRunPerSession` proves when the session's requests name one model; with two models two engines may write one cache at once, and nothing is claimed. Token counters and positions are unbounded integers; nothing is claimed about agreement of cache and chat history, which cancelled runs and resets break.
- StreamReassembly.Reassembler.DecodeStream: fields of the chunk arrive extracted; the ad hoc scanner is not modelled.

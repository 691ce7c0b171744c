# Caduvelox in Dafny

A model of the Caduvelox HTTP/1.1 server's ring thread and of the components around it, with
proofs about every run.

* **The ring** (`RingState`, `RingLocality`, `RingSteps`, `RingHistory`, `Ring`): connections and
  the receive, timer, cancel, write, file and splice jobs they submit. The kernel is an
  environment that holds a multiset of outstanding operations, each naming a job, and completes
  them in any order. Pool allocation and submission entries may fail at every request; each
  failure is counted in the ghost field `shortages`, so that a contract can say what happens
  without one. The stop flag may be set by another thread whenever it is read. A method of class
  `Ring` is one uninterrupted piece of the ring thread's work; `Run` is any sequence of events.
  The invariant says which object may point at which, who closes which descriptor, what is on
  each socket, and what each connection has read; `Idle` is that invariant between two
  completions, and the lemmas at the end of `Ring` read it out.
* **The file transfer** (`SpliceFileJob`): the two-leg linked splice, as a transition function,
  its invariant over all runs, and the object that follows it. The ring uses the transition
  function, so what is proved of a transfer holds of every file response.
* **The queue and the logger** (`Mpmc`, `FastMod`, `AsyncLogger`): atomic steps of any number of
  threads under sequential consistency, and a logger on top of them.
* **HTTP** (`HttpParser`, `HttpFields`, `HttpParserFraming`, `HttpRoundTrip`, `HttpResponses`,
  `HttpResponseWriter`, `HttpRouter`, `UrlDecode`, `RangeRequest`, `HttpServer`): parsing,
  printing, routing and ranges, and their composition into what the ring computes with.
  `ServerRuns` states the combined results.
* **The pool** (`ThreadLocalPool`): the intrusive free list and its generations.

Environment assumptions, all visible in the model: a receive result of zero or less is final; a
completion moves no more bytes than asked; after the head of a linked pair fails its partner is
cancelled; the compare-exchange of the queue may fail spuriously; a logger is destroyed after its
producers have finished. A file's contents are what fstat saw, and a read of it may end early.

Where a comment and the code disagree the model follows the code: a full log queue drops and
counts (src/logging/AsyncLogger.cpp:76-91), although a later comment speaks of writing
synchronously.

`dafny verify dfyconfig.toml` checks everything.

## Model

| member | source | states |
|---|---|---|
| `Ring.Ring.HandleCompletion` | src/Server.cpp:271-296 | any completion the kernel may deliver leaves the ring between completions with its whole invariant; only the connection the job was armed for changes, none at all if that connection is gone; a closing connection is freed by the terminal completion of the last operation it waits for, so after at most two; a connection that never armed a receive is untouched; exactly the bytes delivered and accepted are added to that connection's stream and wire |
| `Ring.Ring.Run` | src/Server.cpp:140-156 | every sequence of completions, accepted sockets and sweeps, with pool and queue exhaustion at every request and a stop that may be signalled at any read of the flag, keeps the invariant; a connection that never armed a receive stays as it is |
| `Ring.Ring.KernelHoldsLiveJobs` | src/Server.cpp:204-212 | no outstanding operation names a freed job; in_flight_ is the number of operations the kernel holds, one per receive, timer, cancel or write and one per splice leg |
| `Ring.Ring.PointersAreLive` | src/http/SingleRingHttpServer.cpp:749-863 | a write, file or splice job that holds a raw connection pointer: the connection is that very object, its descriptor is open and is the one the job uses |
| `Ring.Ring.OneResponse` | src/http/SingleRingHttpServer.cpp:569-585 | two responses are never on the wire of one connection |
| `Ring.Ring.DescriptorsMatch` | src/http/SingleRingHttpServer.cpp:926-945 | a descriptor is open exactly while the connection or file job that will close it holds it |
| `Ring.Ring.ClosingIsNeverStuck` | src/http/SingleRingHttpServer.cpp:863-924 | a connection that has begun to close has a response the kernel will complete, or waits for one or two operations the kernel holds and was asked to cancel |
| `Ring.Ring.WaitsExactlyWhenReading` | src/http/SingleRingHttpServer.cpp:440-493 | between completions a connection is reading if and only if the kernel holds its receive, its timer or its response: exactly the connections that are not reading have nothing that could ever close them |
| `Ring.StrandedAccept` | src/http/SingleRingHttpServer.cpp:440-493 | the input that strands a connection: accepted while there is no receive job or no entry, it is still open, unread and unwatched after any further run |
| `Ring.Ring.ResponsesInOrder` | src/http/SingleRingHttpServer.cpp:654-676 | the socket holds a prefix of the responses in request order, each computed from its own request and range; none follows one that closes; a refusal is last, has the right status and its reason in the stream |
| `Ring.Ring.ChunkingIndependence` | src/http/SingleRingHttpServer.cpp:516-543 | however the stream was cut into receives, the requests dispatched are a prefix of those of the whole stream, all of them once the connection is idle |
| `Ring.Ring.IdleHasAnsweredAll` | src/http/SingleRingHttpServer.cpp:654-676 | an idle connection has dispatched every request of its stream and its socket holds every response in full |
| `Ring.Ring.DrainLeavesNothing` | src/Server.cpp:225-240 | with nothing counted, the kernel holds no job pointer, every job is back in its pool, every file is closed, and the only connections left never armed a receive |
| `ServerRuns.AnnouncedInEveryRun` | src/http/SingleRingHttpServer.cpp:720-733 | with the server's own parser, router and writer: every response says connection: close exactly when it closes, it closes exactly when the request, the handler or a stop asks for it, and no request is dispatched after it |
| `ServerRuns.RequestsOfTheStream` | src/http/SingleRingHttpServer.cpp:583-605 | the same for requests: a prefix of what HttpParser reads from the whole stream |
| `Ring.Ring.constructor` | src/Server.cpp:140-156 | a new ring satisfies the invariant with nothing in it |
| `Ring.Ring.Accept` | src/http/SingleRingHttpServer.cpp:309-326 | without a connection slot the socket is closed at once; otherwise it is a fresh connection, which reads exactly when a receive job and a submission entry can be had, and is left open with nothing armed when not; other connections are unchanged |
| `Ring.Ring.StartReading` | src/http/SingleRingHttpServer.cpp:440-493 | one receive is armed and tracked exactly when the connection is open and not yet reading and a job and an entry can be had; in every other case nothing changes |
| `Ring.Ring.ArmIdleTimeout` | src/http/SingleRingHttpServer.cpp:963-987 | a fresh timer is tracked, or nothing changes |
| `Ring.Ring.SubmitCancel` | src/http/SingleRingHttpServer.cpp:947-961 | a cancel is submitted and counted, or nothing changes |
| `Ring.Ring.CloseConnection` | src/http/SingleRingHttpServer.cpp:863-945 | with a response on the wire only the intent is recorded; otherwise every tracked operation is asked to cancel or forgotten, and with none left the connection is freed |
| `Ring.Ring.CancelIdle` | src/http/SingleRingHttpServer.cpp:876-893 | what is still waited for has a cancel submitted; a timer whose cancel failed is forgotten |
| `Ring.Ring.CancelRead` | src/http/SingleRingHttpServer.cpp:895-920 | the descriptor is given up; what is still waited for has a cancel submitted, a receive whose cancel failed is forgotten |
| `Ring.Ring.Release` | src/http/SingleRingHttpServer.cpp:926-945 | the socket was open and owned by this connection, is closed, and the slot moves to the next generation |
| `Ring.Ring.HandleReadError` | src/http/SingleRingHttpServer.cpp:545-567 | the receive is dropped and the close is entered again |
| `Ring.Ring.HandleIdleTimeout` | src/http/SingleRingHttpServer.cpp:1005-1034 | a superseded timer changes nothing; the current one closes the connection unless it was only cancelled |
| `Ring.Ring.HandleDataReceived` | src/http/SingleRingHttpServer.cpp:495-543 | bytes after the descriptor was given up are dropped, a request over 1 MiB is refused with 431 or 413, other bytes join the buffer in order |
| `Ring.Ring.ProcessHttpRequests` | src/http/SingleRingHttpServer.cpp:569-615 | nothing changes while a response is on the wire or no request is complete; otherwise, without a shortage, exactly one request is taken and its response is on the wire, or malformed bytes are refused with 400 |
| `Ring.Ring.Dispatch` | src/http/SingleRingHttpServer.cpp:598-605 | exactly the consumed bytes leave the buffer, and the request's keep-alive, version and range are noted |
| `Ring.Ring.SendErrorAndClose` | src/http/SingleRingHttpServer.cpp:632-652 | the reason is recorded once and the buffer dropped; with a response on the wire only the close is noted, otherwise the refusal of that status is logged and on the wire, or after a shortage the connection is gone or closing |
| `Ring.Ring.SendResponse` | src/http/SingleRingHttpServer.cpp:706-861 | the connection is kept exactly when the request, the handler and the stop flag all allow it; the log grows by exactly the exchange for this cause and its bytes are what is to be sent, or after a shortage the connection is gone or closing |
| `Ring.Ring.SendBody` | src/http/SingleRingHttpServer.cpp:788-860 | one WriteJob holds the whole response and nothing is sent of it yet; only after a shortage is the connection gone or closing instead |
| `Ring.Ring.SendFile` | src/http/SingleRingHttpServer.cpp:739-786 | the range is None afterwards, a file job owns the response, and its bytes are the file's answer for the range of this request |
| `Ring.Ring.OnResponseComplete` | src/http/SingleRingHttpServer.cpp:654-676 | runs only when the whole response is on the socket; then the pending close, the next pipelined request, or a new idle wait; a kept connection with no complete request stays open |
| `Ring.Ring.ConnectionError` | src/http/SingleRingHttpServer.cpp:770-778 | a failed response releases the slot and closes |
| `Ring.Ring.StartFile` | src/http/HTTPFileJob.cpp:63-79 | 404 without a file, 416 for a range the size cannot satisfy, else head and part of the file, with the range resolved against the size fstat reported; a 500 or a close replaces it only after a shortage or a head that cannot be built |
| `Ring.Ring.StartSendingHeaders` | src/http/HTTPFileJob.cpp:193-328 | head and planned part of the file make up the response, or a 500 replaces it before any byte is sent |
| `Ring.Ring.StartSendingFile` | src/http/HTTPFileJob.cpp:330-380 | a SpliceFileJob for exactly the planned part takes over with nothing of it sent, on the same descriptor and with the same decision; an empty part is complete at once; only a shortage gives the response up |
| `Ring.Ring.RunFile` | src/http/SingleRingHttpServer.cpp:739-786 | a file job is taken and answers the request, or the response fails and the connection closes |
| `Ring.Ring.SendError` | src/http/HTTPFileJob.cpp:382-470 | the file is closed and one WriteJob holds exactly the error page, or after a shortage the connection is gone or closing |
| `Ring.Ring.SpliceDone` | src/http/HTTPFileJob.cpp:339-361 | the file is closed once, the connection told once, the file job freed; an error closes the connection, completion keeps an idle one open |
| `Ring.Ring.FileDone` | src/http/HTTPFileJob.cpp:443-448 | a delivered error page completes the response rather than failing it |
| `Ring.Ring.FileFailed` | src/http/HTTPFileJob.cpp:290-302 | file closed, connection closed, job freed |
| `Ring.Ring.CloseSource` | src/http/HTTPFileJob.cpp:383-386 | the descriptor was open and owned by this job, and is closed |
| `Ring.Ring.OnWrite` | src/jobs/WriteJob.cpp:76-100 | bytes accepted are the next bytes of the response; a partial write is resubmitted or abandoned; each callback runs once |
| `Ring.Ring.SubmitWrite` | src/jobs/WriteJob.cpp:166-192 | queued after at most one flush, or freed first and then reported |
| `Ring.Ring.Abandon` | src/jobs/WriteJob.cpp:130-140 | nothing was queued: the job is freed before its owner is told |
| `Ring.Ring.OnSplice` | src/jobs/SpliceFileJob.cpp:96-296 | one leg's completion advances the transfer and the wire together; the job survives exactly while a leg is outstanding |
| `Ring.Ring.OnRecv` | include/caduvelox/jobs/MultishotRecvJob.hpp:173-238 | freed only on a final completion, re-armed in place or reported; a stale completion reaches no connection; a closing connection is never re-armed |
| `Ring.Ring.RecvLast` | include/caduvelox/jobs/MultishotRecvJob.hpp:220-237 | a multishot ended on data is armed again only for an open connection that still tracks it |
| `Ring.Ring.RecvEnded` | src/http/HttpConnectionRecvHandler.cpp:8-15 | delivered only to the connection it was armed for |
| `Ring.Ring.OnTimer` | src/jobs/IdleTimeoutJob.cpp:26-35 | delivered only to the connection it was armed for, then freed |
| `Ring.Ring.OnCancel` | include/caduvelox/jobs/CancelJob.hpp:27-32 | only freed |
| `Ring.Ring.Finish` | src/Server.cpp:286-295 | the operation is uncounted and a finished job freed after its handler returned; no job is left half-handled |
| `Ring.Ring.Sweep` | src/http/SingleRingHttpServer.cpp:181-193 | no connection, descriptor or response changes; a cancel is submitted for every receive and every timer, unless a pool or the queue was exhausted on the way |
| `RingHistory.HistInstalled` | src/http/SingleRingHttpServer.cpp:826-861 | starting a response keeps the order and prefix properties of every connection's history |
| `RingHistory.HistSent` | src/jobs/WriteJob.cpp:86-93 | so does every byte the socket accepts |
| `RingHistory.Dispatched` | src/http/SingleRingHttpServer.cpp:598-605 | so does taking a request |
| `Framing.ConsumesPrefix` | src/http/SingleRingHttpServer.cpp:583-605 | bytes after complete requests do not change how those are read |
| `SpliceFile.StepInv` | src/jobs/SpliceFileJob.cpp:96-296 | every completion, on either leg, with EAGAIN, cancellation, end of file, half-submission or queue shortage, keeps the transfer's invariant |
| `SpliceFile.StartedInv` | src/jobs/SpliceFileJob.cpp:298-319 | starting establishes it |
| `SpliceFile.StartedOutcome` | src/jobs/SpliceFileJob.cpp:298-319 | an empty transfer ends at once, with success exactly when its pipe could be had; any other fails at once or waits with nothing sent |
| `SpliceFile.TransferConserves` | src/jobs/SpliceFileJob.cpp:184-288 | at every point of every run sent + in pipe + remaining is the requested length, the offset tracks it and the socket has exactly the file's bytes in order |
| `SpliceFile.TransferNotifiesOnce` | src/jobs/SpliceFileJob.cpp:96-182 | one callback, exactly when the job is released, never with a leg outstanding; success only when everything was sent |
| `SpliceFile.StepWork` | src/jobs/SpliceFileJob.cpp:184-288 | 2*remaining + in pipe never grows and shrinks whenever bytes move |
| `SpliceFile.TransferMoves` | src/jobs/SpliceFileJob.cpp:184-288 | so bytes move at most 2*length + 1 times in any run |
| `SpliceFile.StepSends` | src/jobs/SpliceFileJob.cpp:236-288 | what a completion adds to the socket is the next part of the range |
| `SpliceFile.SpliceFileJob.constructor` | src/jobs/SpliceFileJob.cpp:24-41 | initial fields |
| `SpliceFile.SpliceFileJob.Start` | src/jobs/SpliceFileJob.cpp:298-319 | the in-place object does what the specified start does |
| `SpliceFile.SpliceFileJob.StartLinkedSplice` | src/jobs/SpliceFileJob.cpp:333-404 | likewise the linked pair, including half-submission |
| `SpliceFile.SpliceFileJob.DrainPipeToSocket` | src/jobs/SpliceFileJob.cpp:406-435 | likewise the remaining drain |
| `SpliceFile.SpliceFileJob.Resubmit` | src/jobs/SpliceFileJob.cpp:437-449 | likewise the resubmission after EAGAIN |
| `SpliceFile.SpliceFileJob.HandleFailure` | src/jobs/SpliceFileJob.cpp:103-175 | likewise every negative result |
| `SpliceFile.SpliceFileJob.HandleFileBytes` | src/jobs/SpliceFileJob.cpp:184-235 | likewise bytes from the file, and end of file |
| `SpliceFile.SpliceFileJob.HandleSocketBytes` | src/jobs/SpliceFileJob.cpp:236-288 | likewise bytes to the socket |
| `SpliceFile.SpliceFileJob.HandleCompletion` | src/jobs/SpliceFileJob.cpp:96-296 | likewise a whole completion |
| `SpliceFile.Transfer` | src/jobs/SpliceFileJob.cpp:96-319 | the object itself, driven by any sequence of completions the kernel may deliver: until it is released its own fields satisfy the conservation law and no callback has run; once released exactly one has, and success means the socket has the whole range |
| `Mpmc.DoInv` | src/ring_buffer/MPMCRingBuffer.hpp:54-121 | every atomic action of any of any number of threads keeps the protocol's invariant |
| `Mpmc.RunInv` | src/ring_buffer/MPMCRingBuffer.hpp:54-121 | so does every interleaving |
| `Mpmc.CountersAndSlots` | src/ring_buffer/MPMCRingBuffer.hpp:54-121 | 0 <= head - tail <= Size, and no two threads are about to touch one slot's data, in every interleaving |
| `Mpmc.DeliveredExactlyOnce` | src/ring_buffer/MPMCRingBuffer.hpp:100-121 | what dequeue has returned is exactly the released tickets, each once, with the value its producer stored |
| `Mpmc.RefusesOnlyWhenFull` | src/ring_buffer/MPMCRingBuffer.hpp:68-69 | enqueue gives up if and only if ticket pos-Size is unreleased; dequeue if and only if the ticket is unpublished |
| `Mpmc.RefinesFifo` | src/ring_buffer/MPMCRingBuffer.hpp:54-121 | each action leaves the abstract bounded queue alone, appends to it when it has room, or removes its first value |
| `Mpmc.TakerReturnsTicket` | src/ring_buffer/MPMCRingBuffer.hpp:108-114 | a dequeue returns the value of the ticket it took, whatever happened in between |
| `FastMod.MaskIsCell` | src/ring_buffer/MPMCRingBuffer.hpp:15-17 | for a power-of-two capacity the mask is the remainder |
| `FastMod.PowerOfTwo` | src/ring_buffer/MPMCRingBuffer.hpp:19-21 | the compile-time test accepts only powers of two |
| `FastMod.PowersPass` | src/ring_buffer/MPMCRingBuffer.hpp:19-21 | and all of them |
| `AsyncLogger.DoInv` | src/logging/AsyncLogger.cpp:46-123 | every atomic action of producers, worker and destructor keeps the logger's invariant |
| `AsyncLogger.LoggerConserves` | src/logging/AsyncLogger.cpp:46-123 | once the worker has exited, every logged message was written exactly once in ticket order or lost; losses equal the drop reports; written plus reported equals logged |
| `AsyncLogger.EmptyMeansEmpty` | src/ring_buffer/NotifyingRingBuffer.hpp:80-103 | with producers done, a dequeue that finds nothing has found the queue empty |
| `HttpParser.ParseRequest` | src/http/HttpParser.cpp:28-85 | the method's result for every buffer |
| `HttpParser.ParseHeaders` | src/http/HttpParser.cpp:132-217 | the loop computes the fold over the section's lines |
| `HttpParser.LineBeforeBlank` | src/http/HttpParser.cpp:46-48 | a blank line always leaves a request line; the source's check never fires |
| `Digits.ParseDigits` | src/http/HttpParser.cpp:219-240 | accepted exactly when non-empty, all digits and within the cap; the accumulator never exceeds the cap |
| `HttpFields.HeadersMeaning` | src/http/HttpParser.cpp:132-217 | accepted if and only if at most 200 valid lines with agreeing Content-Length; Connection lines joined, any other field its last line |
| `HttpFields.ListContainsToken` | src/http/HttpParser.cpp:277-301 | true if and only if some trimmed, non-empty element equals the token without case |
| `HttpFields.ContainsAny` | src/http/HttpParser.cpp:200-205 | a token on any one of several Connection lines is in the joined list, and only then |
| `HttpParserFraming.ParserIsFramed` | src/http/HttpParser.cpp:28-85 | a successful parse depends on nothing after the bytes it consumed |
| `HttpParserFraming.RefusalIsFinal` | src/http/HttpParser.cpp:33-41 | under 1 MiB the oversize branch is unreachable and a refusal is stable under more bytes |
| `HttpParserFraming.LinesCover` | src/http/HttpParser.cpp:137-146 | the loop's two early exits are unreachable: its lines are the whole section |
| `HttpParserFraming.EveryByteIsInALine` | src/http/HttpParser.cpp:32-58 | on success every byte of the head is in the request line or one validated field line |
| `HttpRoundTrip.RoundTrip` | src/http/HttpParser.cpp:28-124 | print any well-formed request in any field order, append anything, parse: the same request and exactly its length |
| `HttpRoundTrip.AnyFieldParses` | src/http/HttpParser.cpp:155-162 | any valid field is stored under its lowercase name with its value trimmed |
| `HttpRoundTrip.LinesOfJoin` | src/http/HttpParser.cpp:137-146 | cutting finds the lines that were joined |
| `HttpResponses.SetHeader` | include/caduvelox/http/HttpResponse.hpp:35-47 | every spelling of the field is replaced by one lowercase entry, nothing else changes |
| `HttpResponses.NormalizeHeaders` | include/caduvelox/http/HttpResponse.hpp:60-74 | reports whether spellings agree; when they do the result is the folded map whatever the iteration order |
| `HttpResponseWriter.BuildResponseHead` | src/http/HttpResponseWriter.cpp:34-77 | accepted if and only if status, reason and fields are valid and spellings agree; then the bytes are the sorted head |
| `HttpResponseWriter.CollectFields` | src/http/HttpResponseWriter.cpp:39-54 | the first loop, for every iteration order |
| `HttpResponseWriter.Smallest` | src/http/HttpResponseWriter.cpp:66-71 | the first key of the ordered map |
| `HttpResponseWriter.HeadUnique` | src/http/HttpResponseWriter.cpp:34-77 | two runs over the same response give the same bytes: output does not depend on iteration order |
| `HttpResponseWriter.BuiltIsHeadOf` | src/http/HttpResponseWriter.cpp:34-77 | what the method builds is the head the composed server is proved about |
| `HttpResponseWriter.HeadIsFramed` | src/http/HttpResponseWriter.cpp:56-76 | the blank line of a head is its end and nowhere earlier |
| `HttpResponseWriter.HeadValues` | src/http/HttpResponseWriter.cpp:66-75 | a reader finds each sent field once with its value trimmed, and content-length once if and only if the status allows a body |
| `HttpResponseWriter.HeadReadsBack` | src/http/HttpResponseWriter.cpp:34-77 | within the parser's limits its own rules read back exactly the fields sent |
| `HttpServer.EveryResponseAnnounces` | src/http/SingleRingHttpServer.cpp:720-733 | on the body, file, file-error, fallback and refusal paths, connection: close is sent if and only if the captured decision is to close |
| `HttpServer.StampMarks` | src/http/SingleRingHttpServer.cpp:726-733 | the response carries the decision and no other connection option |
| `HttpServer.BodySays` | src/http/SingleRingHttpServer.cpp:797-812 | also when the writer refuses the response and the fallback is sent |
| `HttpServer.FileHeadSays` | src/http/HTTPFileJob.cpp:202-275 | also on a file's head |
| `HttpServer.FileErrorSays` | src/http/HTTPFileJob.cpp:402-421 | also on a file's error page |
| `HttpServer.CloseOnAnyLine` | src/http/SingleRingHttpServer.cpp:1036-1053 | a close option on any one of several Connection lines closes the connection |
| `HttpServer.ServerAppOk` | src/http/SingleRingHttpServer.cpp:678-704 | the server's parser, router and writer meet everything the ring's results assume of them |
| `RangeRequest.ParseRangeWritten` | src/http/RangeRequest.cpp:67-105 | every field written by the grammar parses to what it says |
| `RangeRequest.ParseRangeOnlyWritten` | src/http/RangeRequest.cpp:67-105 | and nothing else parses |
| `RangeRequest.PrintParse` | src/http/RangeRequest.cpp:67-105 | printing any valid spec and parsing it gives the spec back |
| `RangeRequest.ResolveNames` | src/http/RangeRequest.cpp:47-65 | the resolved bytes are exactly the positions section 14.1.2 of RFC 9110 names; none if and only if none is named |
| `RangeRequest.PlanExact` | src/http/HTTPFileJob.cpp:139-182 | openFile's clamp changes nothing, offset + length <= size, length >= 1 for a range, partial exactly when a range was asked for |
| `UrlDecode.DecodePath` | src/http/UrlDecode.cpp:17-72 | the loops compute the per-segment decoding |
| `UrlDecode.DecodeSegmentLoop` | src/http/UrlDecode.cpp:30-61 | the inner loop, with its refusals |
| `UrlDecode.StructurePreserved` | src/http/UrlDecode.cpp:17-72 | same segments in the same places, as many slashes, a .. segment exactly where the raw path has one |
| `UrlDecode.IdentityWithoutEscapes` | src/http/UrlDecode.cpp:17-72 | the identity on paths without a percent sign |
| `UrlDecode.DecodeInvertsEncode` | src/http/UrlDecode.cpp:17-72 | inverts every percent-encoder of segments that leaves a literal .. alone |
| `HttpRouter.RoutePathDecodes` | src/http/HttpRouter.cpp:94-127 | skipping the decoder equals always decoding; a routed path is at most 2048 characters |
| `HttpRouter.Dispatch` | src/http/HttpRouter.cpp:87-170 | 414, 400, the first matching route, or 404, with the handler's response normalised and completed |
| `HttpRouter.RespondLower` | src/http/HttpRouter.cpp:155-166 | every response handed on has lowercase field names only |
| `ThreadLocalPool.PoolIsSound` | include/caduvelox/util/ThreadLocalPool.hpp:51-152 | over every sequence of allocations and frees the free list has no repetition and holds exactly the free slots, available + live = capacity, and no live slot is handed out |
| `ThreadLocalPool.GenerationTells` | include/caduvelox/util/ThreadLocalPool.hpp:135-176 | isLive(p, g) if and only if the slot has not been freed since g was captured from a live object |
| `ThreadLocalPool.Slab.constructor` | include/caduvelox/util/ThreadLocalPool.hpp:51-81 | the list links every slot |
| `ThreadLocalPool.Slab.Allocate` | include/caduvelox/util/ThreadLocalPool.hpp:112-130 | pops the first free slot, or reports exhaustion |
| `ThreadLocalPool.Slab.Deallocate` | include/caduvelox/util/ThreadLocalPool.hpp:135-152 | pushes the slot and bumps its generation; null is ignored |
| `ThreadLocalPool.Slab.GenerationOf` | include/caduvelox/util/ThreadLocalPool.hpp:159-162 | the slot's generation |
| `ThreadLocalPool.Slab.IsLiveNow` | include/caduvelox/util/ThreadLocalPool.hpp:170-176 | for any pointer, also one outside the slab |
| `ThreadLocalPool.Slab.Available` | include/caduvelox/util/ThreadLocalPool.hpp:195-203 | the walk ends and counts the free list |
| `ThreadLocalPool.Slab.Allocated` | include/caduvelox/util/ThreadLocalPool.hpp:215-217 | the rest of the capacity |
| `ThreadLocalPool.Slab.SweepLive` | include/caduvelox/util/ThreadLocalPool.hpp:183-190 | visits exactly the live slots, each once |

## Left out

- Sockets, bind, listen, signals, eventfds, the file system, liburing and the provided-buffer ring: only their contract as an environment appears, so the branch for an unknown buffer id (include/caduvelox/jobs/MultishotRecvJob.hpp:199-206) and a receive error that does not end the multishot are outside the model.
- AcceptJob: an accepted socket is an event; how the accept is armed, re-armed and cancelled by the sweep is not modelled.
- KTLSJob and the TLS handshake.
- HttpServer, ServiceRing, several rings at once: the model is one ring thread.
- Termination of the shutdown drain, and a timer being armed for every wait: neither holds in all runs, so only what holds when the drain ends and the progress of a closing connection are stated.
- That every open connection can be closed is false of the code: Ring.StrandedAccept gives the input, and Ring.Ring.WaitsExactlyWhenReading with Ring.Ring.Accept says exactly when it holds.
- Ring.Ring.HandleDataReceived: its branches for a length of zero or less are not there, because its only caller passes a positive length.
- HTTPFileJob with an explicit offset and length: only whole files and requested ranges are modelled.
- A failing io_uring_submit after an entry was filled in: the entry stays queued and is submitted later, so it is an operation the kernel holds.
- Weak memory order and the wrap-around of 64-bit counters and generations: steps are sequentially consistent and counters unbounded.
- NotifyingRingBuffer's semaphore and watermark: a parked worker may continue at any moment, which is what the bounded park allows.
- std::regex and handlers: a route is a predicate on paths and a function from requests to responses; a handler is deterministic and does not block.
- Media types and modification dates are functions of the path; format_http_date is not modelled.
- HttpServer.FileErrorSays: sendError folds the response's headers first; a response that reaches a file job already has lowercase names, for which folding changes nothing, so the fold is not repeated in the model.
- Logging calls, console and file loggers, examples, and the queue and worker-pool classes the server does not use.

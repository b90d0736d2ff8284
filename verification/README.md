# Winterfell: a model of the reactor, proved in Dafny

Winterfell is a reactor-style network library: each thread runs one event loop, which polls descriptors, dispatches
to channels, and runs tasks other threads have queued. This project models its stateful components and proves what
they keep over whole runs. `dafny verify dfyconfig.toml` checks all of it.

| file | component |
|---|---|
| `Strings.dfy` | the searches and trimming the parser uses |
| `Buffer.dfy` | the growable byte queue with its prepend gap, in-place compaction and scattered reads |
| `HttpRequest.dfy`, `HttpContext.dfy` | requests and the incremental, line-driven parser |
| `HttpResponse.dfy` | the response printer, and how the parser reads a printed header block |
| `HttpServer.dfy` | the driver: one request per read, answers, refusals |
| `EventLoop.dfy` | the task queue shared by one loop thread and any number of foreign threads, with its wake-ups |
| `PollPoller.dfy` | channels, and the poller's vector, map and back-pointers with swap-and-pop removal |
| `TcpConnection.dfy` | the output stream and graceful shutdown |
| `Connector.dfy` | non-blocking connect, retry with back-off, stop and restart |
| `Timestamp.dfy`, `TimerQueue.dfy` | times in microseconds and the timers |
| `Rate.dfy` | the rate limiter, in exact arithmetic |

Each component comes in two forms. A class has the source's fields and methods; the contracts of its methods say that
they take one step of a specification given as functions on values. Lemmas about those functions then speak of every
run. `EventLoop` and `TimerQueue` objects carry the run they have made so far, so the run theorems hold of them at any
point (`NeverOversleeps`, `IsSafe`). An `EventLoop` is given what other threads do between any two steps of its own.

What the system calls answer is a parameter (`write`, `readv`, `connect`, the socket error, what poll reports) or a
sequence of readings (the clock). Characters stand for bytes. An event mask is the set of its flags. The order in which
a `std::map` of headers is walked is a parameter, and results hold for every order.

## Assumptions of the run theorems

- Event loop: memory is sequentially consistent, a locked region is one step, and `callingPendingFunctors_`, which the
  constructor leaves unset, starts out false. What a task does to the loop is part of the task.
- Connector: a retry timer fires in a later pass of the loop than the one that set it: the timerfd, registered first, is
  dispatched before any other channel, and a timer added meanwhile is not in the batch of timers being run. `start` is
  called when disconnected and `restart` when not connecting, with no task and no retry of the connector left in the
  loop; `StartIsSafeExactly` and `RestartIsSafeExactly` show that the assertions need exactly that.
- Connection: a `write` on a write side that is shut fails; the signal it then raises is left out.
- Timers: the clock never goes back, and the timerfd goes off no earlier than the time it is set for.
- Poller: poll reports nothing for a negative descriptor.
- Limiter: the limit is positive or `Inf`; the clock never goes back; the two clock readings of `reserveN` are parameters.

## Where the code and its promises part

- A task queued on the loop's own thread before `loop()` wakes nobody: the first poll sleeps over it
  (`SleepsAtOnce`; `NoLostWakeup` gives the exact condition).
- A printed `Content-Length` of fourteen or more digits is cut by the 32-byte format buffer and swallows the next
  line (`LongBodyLosesFields`; `HeaderBlockRoundTrip` gives the exact condition).
- `loop()` clears `quit_`: a quit from another thread that comes before it is lost, wake-up and all (`EarlyQuitIsLost`;
  `QuitSeenExactly` gives the exact condition).
- An empty interest mask parks a registered descriptor. No update brings it back (`UpdatesNeverHeal`); its removal does
  if nothing else is parked, but a removal while the last entry is parked dereferences null (`RemoveRefinesMap`,
  `ParkedThenRemoved`). No caller in the repository parks, since `disableAll` sets no bits.
- `send` drops a message while output is pending or when `write` fails (`SecondSendDropped`; `NothingDropped` gives the
  exact condition, `CallbacksPaceSends` how a caller can tell).
- A `shutdown` from another thread can shut the write side twice, and a send another thread had queued before can call
  `write` behind it (`ShutTwiceExactly` and `NoWritesAfterShut` give the exact conditions).
- A `start` soon after a `stop` fails the assertion in `connecting` (`StopThenStartTooSoon`). One still sooner, with the
  stop's own task queued, and one with a retry pending are accepted, and a retry fails later (`StartOverQueuedStop`,
  `StartOverPendingRetry`; `StartIsSafeExactly` gives the exact condition).
- Two requests in one read: only the first is answered until more bytes come (`PipelinedMessageWaits`; `AllAnswered`
  gives the exact condition).
- After a refused request line whose method is known, the next read would fail the assertion in `setMethod`
  (`RefusedGetIsFinal`; `RefusalMayBeFinal` gives the exact condition).
- The timerfd is always set for the newest timer, so timers can be late, and one left behind by an expiry may never run
  (`LaterTimerLeftBehind`; `TimerfdInTime`, `StuckWhileDisarmed` and `NextExpiryTakes` give the exact conditions).
- The limiter never writes its tokens back: a caller that waits out each delay can still get two events at one instant
  (`TwoAtOnce`; `NeighboursKeepApart` gives the exact condition), so it is not a token bucket, as the repository's
  README calls it. What it does bound is `WindowBound`.

## Model

| member | source | states |
|---|---|---|
| Strings.FindCRLF | winterfell/net/wf_buffer.h:31-34 | the first CRLF, or none exactly when there is none |
| Strings.TrimIsTrim | winterfell/net/http/wf_http_request.h:97-106 | a header value loses white space only, at its two ends only, and all of it |
| Strings.TrimPadding | winterfell/net/http/wf_http_request.h:97-106 | white space put around a trimmed text is all that trimming removes |
| Strings.SpacesByCode | winterfell/net/http/wf_http_request.h:99-104 | white space is the blank and the control characters 9 to 13 |
| Buffers.RunRefinesQueue | winterfell/net/wf_buffer.cc:51-117 | over every legal run of append, prepend, retrieve and readFd, with growth and compaction, the readable bytes are those of a plain queue |
| Buffers.SpaceBound | winterfell/net/wf_buffer.cc:68-97 | if at most m bytes are ever readable the vector never exceeds max(1032, 2m + 7) |
| Buffers.SpaceBoundIsTight | winterfell/net/wf_buffer.cc:85-89 | a legal run reaches that bound |
| Buffers.GapKept | winterfell/net/wf_buffer.cc:85-97 | an emptied or compacted buffer has its eight bytes in front again, and no append takes them away |
| Buffers.Buffer.constructor | winterfell/net/wf_buffer.cc:16-23 | an empty buffer of 1032 bytes with 8 in front |
| Buffers.Buffer.CopyDown | winterfell/net/wf_buffer.cc:93 | the ascending overlapping copy moves the bytes unharmed when its target is not above its source |
| Buffers.Buffer.MakeSpace | winterfell/net/wf_buffer.cc:85-97 | room for len bytes, contents untouched; compaction is entered only with readerIndex_ above kCheapPrepend |
| Buffers.Buffer.AppendBytes | winterfell/net/wf_buffer.cc:68-74 | adds the bytes at the end; says which of room, growth and compaction was used |
| Buffers.Buffer.PrependBytes | winterfell/net/wf_buffer.cc:78-83 | puts the bytes in front, into the gap |
| Buffers.Buffer.RetrieveBytes | winterfell/net/wf_buffer.cc:51-54 | drops a prefix |
| Buffers.Buffer.RetrieveAsString | winterfell/net/wf_buffer.cc:55-59 | returns all contents and empties the buffer |
| Buffers.Buffer.ReadFromFd | winterfell/net/wf_buffer.cc:99-117 | appends exactly the bytes read, wherever the split between spare room and extrabuf falls; nothing on failure |
| HttpRequests.MethodNames | winterfell/net/http/wf_http_request.h:35-78 | setMethod takes exactly the string methodString gives for each method |
| HttpRequests.MethodTokens | winterfell/net/http/wf_http_request.h:38-48 | the five tokens name the five methods |
| HttpRequests.HeaderIsTrimmed | winterfell/net/http/wf_http_request.h:97-108 | the value stored is what follows the colon without its outer white space; no other field changes |
| HttpRequests.HttpRequest.SetMethod | winterfell/net/http/wf_http_request.h:35-52 | sets the method named by the token, and nothing else; says whether it is known |
| HttpRequests.HttpRequest.AddHeader | winterfell/net/http/wf_http_request.h:97-108 | stores the trimmed text after the colon under the text before it; the last one wins |
| HttpRequests.HttpRequest.Swap | winterfell/net/http/wf_http_request.h:120-127 | exchanges all fields |
| HttpContexts.AcceptedLineIsLossless | winterfell/net/http/wf_http_context.cc:12-43 | every accepted request line is methodString, blank, path, query, blank, version put together, and nothing else was set |
| HttpContexts.WellFormedLineAccepted | winterfell/net/http/wf_http_context.cc:12-43 | every well-formed tuple put together parses to itself |
| HttpContexts.VersionTokens | winterfell/net/http/wf_http_context.cc:30-37 | HTTP/1.0 and HTTP/1.1 and no other |
| HttpContexts.ParseConcat | winterfell/net/http/wf_http_context.cc:45-82 | bytes that arrive later are read as if they had been there from the start |
| HttpContexts.ParseIgnoresClock | winterfell/net/http/wf_http_context.cc:45-82 | the receive time changes nothing but the time stamp |
| HttpContexts.FragmentationIndependence | winterfell/net/http/wf_http_context.cc:45-82 | for every way of cutting a stream, verdict, state, request and leftover are those of one call on the whole stream |
| HttpContexts.ParsePrinted | winterfell/net/http/wf_http_context.cc:45-82 | a well-formed message in front of anything is read to kGotAll with exactly its meaning, and nothing behind it is touched |
| HttpContexts.ParsedWasPrinted | winterfell/net/http/wf_http_context.cc:45-82 | whatever reaches kGotAll is a well-formed message, byte for byte, followed by the leftover |
| HttpContexts.LastFieldCounts | winterfell/net/http/wf_http_request.h:97-108 | of the fields with a name the last one counts, trimmed |
| HttpContexts.AcceptedLanguage | winterfell/net/http/wf_http_context.cc:45-82 | kGotAll is reached on exactly the streams that begin with a well-formed message |
| HttpContexts.PipelinedRequests | winterfell/net/http/wf_http_context.h:32-36 | k messages laid end to end come back in order by k rounds of parseRequest and reset, and leave exactly what follows |
| HttpContexts.RefusalMayBeFinal | winterfell/net/http/wf_http_context.cc:15-16 | a refused line stays in the buffer, and parseRequest may be entered again if and only if no known method was set |
| HttpContexts.RefusedGetIsFinal | winterfell/net/http/wf_http_request.h:35-36 | "GET x" is such a line |
| HttpContexts.Parse | winterfell/net/http/wf_http_context.cc:45-82 | kExpectBody is never reached; a call that wants more bytes has used up every line and may be entered again |
| HttpContexts.HttpContext.ProcessRequestLine | winterfell/net/http/wf_http_context.cc:12-43 | the method sets and answers what the specification of a request line says, refused lines included |
| HttpContexts.HttpContext.TakeLine | winterfell/net/http/wf_http_context.cc:49-76 | one line's effect, by state |
| HttpContexts.HttpContext.Round | winterfell/net/http/wf_http_context.cc:48-80 | one round either uses up bytes and keeps the answer of the whole parse, or ends with it |
| HttpContexts.HttpContext.ParseRequest | winterfell/net/http/wf_http_context.cc:45-82 | the loop ends, readable bytes and the continue flag decreasing, with verdict, context and leftover of Parse |
| HttpContexts.HttpContext.Reset | winterfell/net/http/wf_http_context.h:32-36 | a fresh context |
| HttpResponses.ThirteenDigits | winterfell/net/http/wf_http_response.cc:24 | thirteen digits suffice exactly below ten trillion |
| HttpResponses.HeaderBlockRead | winterfell/net/http/wf_http_response.cc:20-37 | a printed header block always takes the parser to kGotAll and leaves exactly the body |
| HttpResponses.LengthLineMatters | winterfell/net/http/wf_http_response.cc:20-34 | the fields read are the fields printed if and only if the length line fits or both lines it joins are overridden |
| HttpResponses.HeaderBlockRoundTrip | winterfell/net/http/wf_http_response.cc:20-37 | behind any request line: request line, fields (added ones win) and body all come back, the fields under that exact condition |
| HttpResponses.DigitsValue | winterfell/net/http/wf_http_response.cc:15-24 | a printed number reads back as that number, without a leading nought |
| HttpResponses.ContentLengthRead | winterfell/net/http/wf_http_response.cc:20-37 | the Content-Length read is the number of bytes left as the body, unless the response closes, its length does not fit, or it sets its own |
| HttpResponses.StatusLineReads | winterfell/net/http/wf_http_response.cc:13-18 | for any int status, the status line is HTTP/1.1, the status in decimal and the message |
| HttpResponses.LongBodyLosesFields | winterfell/net/http/wf_http_response.cc:24 | a ten trillion byte body whose fields do not come back |
| HttpResponses.HttpResponse.AppendToBuffer | winterfell/net/http/wf_http_response.cc:13-38 | appends the status line and the header block with the body, for any order of the header map |
| HttpServers.ReadsAnswerInOrder | winterfell/net/http/wf_http_server.cc:45-55 | however a stream that begins with messages is cut into reads, their requests are handed to the callback in order, once each, one for each read that ends with one complete, whatever follows them |
| HttpServers.RepliesInOrder | winterfell/net/http/wf_http_server.cc:45-68 | and the connection takes on exactly the printed replies to all that was answered, in order, and the refusal of what was refused, if and only if each read that sends finds the connection open, nothing waiting, and a write that succeeds; what is taken on is what is written and then what waits |
| HttpServers.SomeWalk | winterfell/net/http/wf_http_response.cc:30-34 | there is a way to walk every header map, as the server results ask |
| HttpServers.ClosesByVersion | winterfell/net/http/wf_http_server.cc:58-59 | HTTP/1.0 is closed unless kept alive, any other version kept alive unless closed |
| HttpServers.CallbackIsHanded | winterfell/net/http/wf_http_server.cc:60-61 | the callback is handed an empty response that closes by that rule |
| HttpServers.PeersAgreeOnClosing | winterfell/net/http/wf_http_response.cc:20-27 | a printed response says by the same rule, to a reader of either version, whether it closes |
| HttpServers.PrintedReply | winterfell/net/http/wf_http_server.cc:60-67 | what goes out begins with the response's status line, ends with its body, and closes when it does |
| HttpServers.ReadShutsDown | winterfell/net/http/wf_http_server.cc:45-68 | a read shuts the connection down exactly when it refuses or answers with a reply that closes |
| HttpServers.RefusalIsAResponse | winterfell/net/http/wf_http_server.cc:48 | the refusal is the status line of a bad request and nothing else |
| HttpServers.AllAnswered | winterfell/net/http/wf_http_server.cc:45-55 | after each read every complete message has been answered, if and only if no read completes two |
| HttpServers.PipelinedMessageWaits | winterfell/net/http/wf_http_server.cc:45-55 | the second of two messages in one read stays in the buffer unanswered |
| HttpServers.HttpServer.OnRequest | winterfell/net/http/wf_http_server.cc:57-68 | the connection makes exactly these calls: send with the callback's response, printed, and shutdown if it closes |
| HttpServers.HttpServer.OnMessage | winterfell/net/http/wf_http_server.cc:45-55 | context and buffer take one read's step of the session, the connection makes exactly the calls that belong to it |
| EventLoops.NoLostWakeup | winterfell/net/wf_event_loop.cc:59-143 | in no interleaving does the loop block over a task, or a quit set since loop() was entered, if and only if it is entered with an empty queue or a wake-up posted or on its way |
| EventLoops.QuitStays | winterfell/net/wf_event_loop.cc:53-70 | a quit stays set through every run that does not enter loop() |
| EventLoops.QuitSeenExactly | winterfell/net/wf_event_loop.cc:53-70 | in every interleaving a foreign quit is still set when the loop next tests it, if and only if it comes while loop() runs |
| EventLoops.EarlyQuitIsLost | winterfell/net/wf_event_loop.cc:57 | from every state before loop() with nothing queued, a run in which a foreign quit before it is lost and the loop blocks |
| EventLoops.SleepsAtOnce | winterfell/net/wf_event_loop.cc:103-112 | otherwise the first poll sleeps |
| EventLoops.GuardedStep | winterfell/net/wf_event_loop.cc:59-143 | the invariant behind it, kept by every step of every thread |
| EventLoops.ExactlyOnceInOrder | winterfell/net/wf_event_loop.cc:103-126 | over every run, tasks executed, then the rest of the batch, then the queue, are all tasks ever queued, in push order |
| EventLoops.PassRunsSnapshot | winterfell/net/wf_event_loop.cc:114-126 | one pass runs exactly the tasks it swapped out |
| EventLoops.EventLoop.NeverOversleeps | winterfell/net/wf_event_loop.cc:53-143 | both hold of a loop object at any point, whatever other threads do between any two steps |
| EventLoops.EventLoop.QueueInLoop | winterfell/net/wf_event_loop.cc:103-112 | pushes the task, and has signalled it if pending functors are being run |
| EventLoops.EventLoop.ForeignPush | winterfell/net/wf_event_loop.cc:103-107 | a foreign thread's push, which then owes a wake-up |
| EventLoops.EventLoop.ForeignWake | winterfell/net/wf_event_loop.cc:135-138 | the wake-up it owes |
| EventLoops.EventLoop.DoPendingFunctors | winterfell/net/wf_event_loop.cc:114-126 | runs what was pending and what others pushed before the swap, in order; its own pushes are what those tasks queue, in order; what is left pending is signalled or about to be |
| EventLoops.EventLoop.HandleEvents | winterfell/net/wf_event_loop.cc:62-64 | dispatches the active channels, running no queued task; its own pushes are what their callbacks queue, in order |
| EventLoops.EventLoop.DoPoll | winterfell/net/wf_event_loop.cc:61 | the active channels are those poll reports, in order, the wake-up channel among them exactly while its counter is positive |
| EventLoops.EventLoop.Loop | winterfell/net/wf_event_loop.cc:53-70 | runs rounds until quit, with any foreign steps in between: in each, what the reported channels' callbacks queue is queued, then the pass runs and what it queues is, in order; what was pending at the start is in the first pass |
| EventLoops.EventLoop.Others | winterfell/net/wf_event_loop.cc:103-138 | exactly the pushes, quits and wake-ups that other threads make at this point, each a step of the protocol |
| PollPollers.UpdateRefinesMap | winterfell/net/poller/wf_poll_poller.cc:52-79 | on every table, parked entries included, an update is one of a map that keeps what is parked parked; the table is sound afterwards if and only if it was and the update does not park |
| PollPollers.RemoveRefinesMap | winterfell/net/poller/wf_poll_poller.cc:81-101 | swap-and-pop reaches channels_[-1] exactly when the last entry is parked; otherwise it removes exactly that descriptor, and leaves the table sound exactly when nothing else was parked |
| PollPollers.RunRefinesMap | winterfell/net/poller/wf_poll_poller.cc:52-101 | over every run that does not reach channels_[-1] vector and indices stay inverse and the poller is that map |
| PollPollers.UnparkedRunIsSound | winterfell/net/poller/wf_poll_poller.cc:52-101 | a run that never parks does not reach it, and parks nothing |
| PollPollers.UpdatesNeverHeal | winterfell/net/poller/wf_poll_poller.cc:64-78 | no run of updates makes a table sound that has a parked descriptor |
| PollPollers.ParkedThenRemoved | winterfell/net/poller/wf_poll_poller.cc:81-101 | on every sound table: removing the one parked descriptor heals, unless its entry is the last, where every removal reaches channels_[-1] |
| PollPollers.ActiveExactly | winterfell/net/poller/wf_poll_poller.cc:37-50 | the active list holds exactly the entries with events |
| PollPollers.PollPoller.UpdateChannel | winterfell/net/poller/wf_poll_poller.cc:52-79 | the table and the map change as above, for parked channels too, and the channel is known from then on |
| PollPollers.PollPoller.RemoveChannel | winterfell/net/poller/wf_poll_poller.cc:81-101 | where it does not dereference null, the table and the map change as above; the removed channel keeps its stale index |
| PollPollers.PollPoller.FillActiveChannels | winterfell/net/poller/wf_poll_poller.cc:37-50 | the first numEvents channels with events, in vector order, each carrying its own; all of them for poll's own count; no other channel's events change |
| TcpConnections.OutputConservation | winterfell/net/wf_tcp_connection.cc:64-147 | over every run, bytes written and then bytes buffered are the accepted messages in order, and writing is watched for exactly while bytes wait |
| TcpConnections.WrittenExactly | winterfell/net/wf_tcp_connection.cc:64-147 | each step puts on the wire as many bytes as the write it calls takes |
| TcpConnections.AlwaysReads | winterfell/net/wf_channel.h:55 | a connection is read from over every run, what should stop that setting no bits |
| TcpConnections.PhaseOfNew | winterfell/net/wf_tcp_connection.cc:99-104 | a new connection becomes connected by connectEstablished alone |
| TcpConnections.PhaseOfConnected | winterfell/net/wf_tcp_connection.cc:89-123 | a connected one stays so exactly until a shutdown or destruction, and is kDisconnected exactly after the latter |
| TcpConnections.CompletionsAreExact | winterfell/net/wf_tcp_connection.cc:70-74 | the write-complete callback is queued exactly by the steps that leave nothing to write |
| TcpConnections.GracefulShutdown | winterfell/net/wf_tcp_connection.cc:70-153 | over every run, with other threads in send and shutdown, the write side is shut only with every accepted byte on the wire, and is shut or about to be as soon as that is so in kDisconnecting |
| TcpConnections.ShutdownStarts | winterfell/net/wf_tcp_connection.cc:118-123 | a shutdown on the loop's thread shuts the write side at once exactly when nothing waits to be written |
| TcpConnections.ShutdownFinishes | winterfell/net/wf_tcp_connection.cc:70-87 | otherwise as soon as what waits is written, over every run without destruction |
| TcpConnections.ForeignShutdownFinishes | winterfell/net/wf_tcp_connection.cc:118-153 | a shutdown from another thread has done so when everything is written and its task has run |
| TcpConnections.OnlyLateSendsWrite | winterfell/net/wf_tcp_connection.cc:64-147 | once it is shut, a step reaches write if and only if it runs a send another thread had queued |
| TcpConnections.NoWritesAfterShut | winterfell/net/wf_tcp_connection.cc:64-147 | so write is called again in a run if and only if such a send is run |
| TcpConnections.ShutAgain | winterfell/net/wf_tcp_connection.cc:118-123 | a step shuts again if and only if it is a queued shutdownInLoop |
| TcpConnections.ShutOnce | winterfell/net/wf_tcp_connection.cc:118-123 | with shutdowns from the loop's thread only, the write side is shut at most once |
| TcpConnections.ShutTwiceExactly | winterfell/net/wf_tcp_connection.cc:70-123 | a shutdown can come to shut twice if and only if it is called from another thread while bytes wait or a message with bytes is on its way to the loop |
| TcpConnections.WireIsFinal | winterfell/net/wf_tcp_connection.cc:64-153 | and as that write fails, nothing more is taken on or written |
| TcpConnections.NothingDropped | winterfell/net/wf_tcp_connection.cc:106-147 | every message decided over, by sendInLoop or by a send that turns it away, is taken on, in order, if and only if each meets kConnected, an empty buffer and a write that succeeds |
| TcpConnections.SentOrUnderway | winterfell/net/wf_tcp_connection.cc:106-115 | every message sent from any thread is decided over, once for each time it was sent, or still on its way to the loop |
| TcpConnections.SecondSendDropped | winterfell/net/wf_tcp_connection.cc:124-147 | a message sent while another is half written is dropped |
| TcpConnections.CallbacksPaceSends | winterfell/net/wf_tcp_connection.cc:70-74 | over every run the buffer is empty exactly when as many write-complete callbacks were queued as messages taken on |
| TcpConnections.TcpConnection.SendInLoop | winterfell/net/wf_tcp_connection.cc:124-147 | takes the message on or drops it, keeping the stream conserved and the shutdown graceful |
| TcpConnections.TcpConnection.Send | winterfell/net/wf_tcp_connection.cc:106-115 | the same in kConnected, nothing otherwise |
| TcpConnections.TcpConnection.HandleWrite | winterfell/net/wf_tcp_connection.cc:64-87 | moves a prefix of the buffer to the wire; when drained, stops watching, completes, and shuts if disconnecting |
| TcpConnections.TcpConnection.Shutdown | winterfell/net/wf_tcp_connection.cc:118-123 | turns kConnected into kDisconnecting and shuts at once when nothing waits |
| TcpConnections.TcpConnection.ShutdownInLoop | winterfell/net/wf_tcp_connection.cc:148-153 | shuts the write side unless output waits |
| TcpConnections.TcpConnection.RunTask | winterfell/net/wf_tcp_connection.cc:111 | the oldest send or shutdown another thread has queued |
| TcpConnections.TcpConnection.CallForeignShutdown | winterfell/net/wf_tcp_connection.cc:118-121 | another thread's shutdown up to the change of state_ |
| Connectors.AssertionsNeverFail | winterfell/net/wf_connector.cc:38-149 | in every run of dispatches and batches each assertion of the source holds when it is reached; outside kConnecting a channel is there exactly while its reset waits |
| Connectors.StartIsSafeExactly | winterfell/net/wf_connector.cc:33-105 | whatever connect answers, a start meets its assertions and leads to none that can fail, if and only if the connector is disconnected with no task and no retry left in the loop |
| Connectors.RestartIsSafeExactly | winterfell/net/wf_connector.cc:90-96 | the same for a restart, if and only if it is not connecting with none left |
| Connectors.StartOverQueuedStop | winterfell/net/wf_connector.cc:48-60 | from every idle disconnected state, a stop and a start at once: the retry that follows comes before the reset and fails its assertion |
| Connectors.StartOverPendingRetry | winterfell/net/wf_connector.cc:38-40 | the same for a refused connect, a stop, and a start within the back-off |
| Connectors.StopThenStartTooSoon | winterfell/net/wf_connector.cc:48-60 | a run after which a start fails the assertion in connecting |
| Connectors.SocketConservation | winterfell/net/wf_connector.cc:53-163 | every socket is exactly one of in flight, handed over or closed, none twice; one is in flight exactly in kConnecting |
| Connectors.StartOutcome | winterfell/net/wf_connector.cc:62-88 | a start, and a retry unless stopped, makes one socket: in flight, closed and retried, or closed for good, by errno |
| Connectors.RestartOutcome | winterfell/net/wf_connector.cc:90-96 | so does a restart, with the first delay due again |
| Connectors.EventOutcome | winterfell/net/wf_connector.cc:120-149 | an event hands the socket over exactly when it became writable without any error and nobody stopped; a failure is closed, and retried unless stopped |
| Connectors.StopOutcome | winterfell/net/wf_connector.cc:53-60 | a stop's own task closes the socket in flight and schedules nothing |
| Connectors.StopHolds | winterfell/net/wf_connector.cc:48-60 | after a stop nothing is connected, handed over or scheduled until start or restart |
| Connectors.RetriesBackOff | winterfell/net/wf_connector.cc:151-163 | after k retries the delay is min(500 * 2^k, 30000), and each before it was its own |
| Connectors.Connector.Connect | winterfell/net/wf_connector.cc:62-88 | by errno: starts connecting, retries, or closes |
| Connectors.Connector.Retry | winterfell/net/wf_connector.cc:151-163 | closes the socket and, unless stopped, schedules a start and doubles the delay |
| Connectors.Connector.HandleEvent | winterfell/net/wf_channel.cc:34-62 | error callback, then write callback, keeping all invariants |
| Connectors.Connector.RunTask | winterfell/net/wf_connector.cc:53-60 | a queued stop or reset, keeping all invariants |
| Connectors.Connector.Start | winterfell/net/wf_connector.cc:33-46 | start, wherever the source's assertions allow it, keeping all invariants where the demand is met |
| Connectors.Connector.Restart | winterfell/net/wf_connector.cc:90-96 | restart, back at the first delay, wherever the assertions allow it, keeping all invariants where the demand is met |
| Timestamps.SecondsRoundTrip | winterfell/base/wf_timestamp.h:84-88 | a span in microseconds survives secondsSinceEpochDouble and addTime |
| Timestamps.TruncatesTowardsZero | winterfell/base/wf_timestamp.h:84-88 | a span in seconds loses less than a microsecond and never grows |
| TimerQueues.ExpiryIsExact | winterfell/net/wf_timer_queue.cc:66-68 | an expiry takes out exactly the entries earlier than now, in order |
| TimerQueues.InsertedInPlace | winterfell/net/wf_timer_queue.cc:58 | a new entry stands behind every entry due no later and before all others |
| TimerQueues.DueAsAsked | winterfell/net/wf_event_loop.cc:85-95 | runAt is due at its time, runAfter and runEvery their span from now, and runEvery repeats exactly for a positive span |
| TimerQueues.RunAfterKeepsItsDelay | winterfell/net/wf_event_loop.cc:88-91 | over every run, a runAfter of m microseconds runs later than m after it was made, and once |
| TimerQueues.RunAtKeepsItsTime | winterfell/net/wf_event_loop.cc:85-87 | a runAt runs later than its time, and once |
| TimerQueues.AddedTimer | winterfell/net/wf_timer_queue.cc:46-59 | a timer added is made for that call and waits under its time |
| TimerQueues.RearmedTimer | winterfell/net/wf_timer.cc:23-25 | a repeating timer is put back for its interval from then |
| TimerQueues.TimerSafety | winterfell/net/wf_timer_queue.cc:51-83 | over every run each live timer waits in one place, once, under its own time, which is the one asked for until it repeats; one-shot timers run at most once and not early |
| TimerQueues.RepeatingTimersKeepTheirDistance | winterfell/net/wf_timer.cc:23-25 | run k of a repeating timer is later than k intervals after it was made |
| TimerQueues.TimerfdInTime | winterfell/net/wf_timer_queue.cc:51-70 | throughout a run the timerfd is set for the first waiting timer, if and only if each timer is added while due first, or past already with an earlier one waiting, and each expiry finds every waiting timer due |
| TimerQueues.StuckWhileDisarmed | winterfell/net/wf_timer_queue.cc:51-70 | an idle queue runs nothing until another timer is added, exactly while the timerfd is not set |
| TimerQueues.NextExpiryTakes | winterfell/net/wf_timer_queue.cc:61-70 | the next expiry is sure to take a waiting timer if and only if that is due before the timerfd goes off |
| TimerQueues.LaterTimerLeftBehind | winterfell/net/wf_timer_queue.cc:57-58 | a run that leaves a timer waiting with nothing to run it |
| TimerQueues.TimerQueue.AddTimer | winterfell/net/wf_timer_queue.cc:46-59 | a new timer enters the heap behind those of the same time, and the timerfd is set for it |
| TimerQueues.TimerQueue.TimerQueueCallBack | winterfell/net/wf_timer_queue.cc:61-70 | the due timers run in order, each once, also when callbacks add timers |
| TimerQueues.TimerQueue.RunOne | winterfell/net/wf_timer_queue.cc:74-82 | runs one timer once, adds every timer its callback asks for, and puts it back if it repeats |
| TimerQueues.TimerQueue.IsSafe | winterfell/net/wf_timer_queue.h:55 | safety holds of a queue object after any calls on it |
| Rates.EveryPeriod | winterfell/base/wf_rate.cc:13-18 | Every(t) lets one token come in each t microseconds |
| Rates.GrantedActsAt | winterfell/base/wf_rate.cc:62-81 | a granted reservation acts at max(now, last + period of its tokens), less the gap between the clock readings |
| Rates.TokensLeft | winterfell/base/wf_rate.cc:35-47 | after k periods without a grant min(k, burst) tokens are there |
| Rates.UnlimitedGrants | winterfell/base/wf_rate.cc:62-66 | an unlimited limiter grants at once |
| Rates.DelayEndsAtAct | winterfell/base/wf_rate.cc:83-92 | waiting out the delay of a granted reservation ends when it acts; a refused one has the largest delay |
| Rates.NoThreeWithinAPeriod | winterfell/base/wf_rate.cc:62-92 | for a caller that waits, the third of three events is a period, less the gap, after the first |
| Rates.WindowBound | winterfell/base/wf_rate.cc:62-92 | at most 2 * (floor((width - 1) / period) + 1) events in a half-open window |
| Rates.NeighboursKeepApart | winterfell/base/wf_rate.cc:35-47 | two events keep a period apart, less any slack, if and only if the second was asked for that long after the first, or the first waited no longer than the slack and the gap of the clock readings leave |
| Rates.TwoAtOnce | winterfell/base/wf_rate.cc:74-78 | a waiting caller with two events at one instant |
| Rates.Limiter.ReserveTokens | winterfell/base/wf_rate.cc:62-81 | the time to act in closed form, refusals and the unlimited case |

## Left out

- Rates.GrantedActsAt: exact arithmetic; the rounding of doubles on the way through seconds can move a result by a microsecond.
- Limits that are zero or negative: dividing by them is undefined in the source.
- TimerQueues.TimerSafety: does not say that timers fire in time, which TimerfdInTime shows to fail.
- TimerQueues.TimerQueue.AddTimer: timers are numbered values in a store, not objects, so sharing a `Timer*` is not captured; adding from another thread, which goes through the loop's queue, is not modelled.
- Integer overflow of times, delays and sizes; the eventfd counter's own limit is modelled.
- Buffers: swap, the move constructor and moved-from buffers; retrieveAsString with a length.
- Bytes above 127 given to isspace, whose result depends on the platform.
- PollPollers: the poll system call itself; channels' callbacks other than the connector's; epoll, which the repository does not implement.
- TcpConnections: the input side beyond the parser, handleClose and handleError; the unsynchronized reads and writes of state_ by other threads are taken as atomic.
- Connectors: start and stop called from another thread; the loop's queue and timers are reduced to this connector's own tasks and retries; sockets are numbered as they are made, so reuse of descriptor numbers by the kernel is not captured.
- HttpServers: a session ends at the first refusal; what later reads do on a refused context is only said by RefusalMayBeFinal.
- HTTP bodies and chunked transfer: the parser never enters kExpectBody.
- Logging, threads, mutexes, endpoints, sockets, acceptors, sub-loops, client and server bookkeeping, and object lifetime.

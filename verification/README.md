# A verified model of MiniServer

MiniServer is an epoll-based HTTP server: one event-loop thread accepts sockets and waits for events,
worker threads read, parse, answer and write, and two mutexes, a `processing` flag and one-shot epoll
registration keep them apart. This project models that server in Dafny and proves what it promises.

## How it is modelled

- **Bytes and framing** (`Bytes`, `Framing`, `HeaderBlock`): byte strings, `find`, decimal numbers, the
  cutting of an input stream into requests, with the 64-bit wrap of `headersLen + contentLength` written out.
- **Connection** (`Connection`): the class with its read buffer and two-segment write cursor, each method
  proved against a function on its fields, and theorems about those functions.
- **Requests** (`UrlCodec`, `HttpRequest`, `RequestRouter`, `RequestStream`): percent decoding, the line-driven
  parser, the form decoder, and the round trip of pipelined requests.
- **Responses** (`HttpResponse`, `Service`, `ServiceMeaning`): response framing, the whole answer to one framed
  request, and what that answer is, told from what the request meant.
- **The client** (`Client`): the repository's own, with the chunks it takes and the bytes it throws away.
- **Timers** (`TimerHeap`): the lazy-deletion heap against a plain map from descriptor to deadline.
- **The protocol** (`Server`): a transition system. Every mutex-protected block, every `read` and `writev`,
  every epoll call, `accept` and `close` is one atomic step; steps of the loop and of all workers interleave
  freely. The kernel is a set of open descriptors, an interest per registered descriptor that is disarmed on
  delivery, an input stream per socket and arbitrary partial counts. Two history variables (`token`, `owner`),
  a count of the calls of `close` for each connection, and for each socket what was served and written only record
  what happened; no step's condition reads them.
  `ServerTable` proves what holds in every run, `ServerData` what each block does to one connection's data,
  `ServerToken` and `ServerRuns` the invariant of careful runs, `ServerTheorems` what follows, `ServerReuse` a
  run that breaks the hypothesis and what it comes to, `ServerGrowth` what is never taken back, `ServerShutdown`
  that the drain comes to an end, `ServerFootprint`, `ServerProgress` and `ServerAnswers` that no framed request is
  stranded, `ServerTimers` that active connections are kept and idle ones expired, `ServerStop` when the loop ends,
  `ServerCloses` what closing means, `ServerClaims` that a connection object is in one task at a time, and
  `ServerClient` what the client gets from the server.
- **The blocking resources** (`ThreadPool`, `Logger`, `DatabasePool`): the pool and the logger as transition
  systems with notifications, spurious wake-ups and joins as separate steps; the lease pool as two classes
  proved against a value, and theorems about all runs on that value.

A *careful* run is one in which `accept` never returns a descriptor that a queued or running task still
names. Tasks capture a descriptor, not a connection, and idle expiry closes connections whether or not they
are being worked on, so without it exclusion, order and the buffers fail. One run shows all three: two workers
are given one live descriptor (`ServerReuse.ReuseBreaksExclusion`), append what they read in the wrong order and
serve what is not the first request sent (`ServerReuse.ReuseBreaksOrder`), and overwrite an answer of which
nothing was written (`ServerReuse.ReuseLosesAnswer`). For single placement the hypothesis is exact: every open
descriptor stays in a single place all along a run if and only if the run is careful
(`ServerTheorems.CarefulIffSingle`). For `ServerTheorems.EndToEnd` and the results about the buffers it is proved
sufficient. The results about the descriptor table, the moves of the deadlines, claims, closed connections,
growth and the course of `stop` need no hypothesis.

Three more results are "if and only if" because the plain claim is false of the code. A framed request is
accepted exactly when the length sum did not wrap (`HttpRequests.AcceptedIffNoWrap`;
`RequestStreams.WrappedRequestIsCut` is the failing family). A returned `ThreadPool::stop` has finished every
pushed task exactly when `start` had launched at least one worker or nothing was pushed
(`ThreadPools.StopDrains`). Successive calls of the client return the responses of a stream exactly when every
response ends where a received chunk does (`Clients.CallsReturnIff`; `Clients.CoalescedIsLost` is a stream that
fails), which `ServerClient.OneOutstandingIsServed` shows to be so for a client with one request outstanding.

## Model

| member | source | states |
|---|---|---|
| `Framing.AddSizes` | connection.cpp:69 | the `size_t` sum is the true sum exactly when it does not fall below its first term; otherwise it is short by 2^64 |
| `Framing.ExtractWhole` | connection.cpp:61-75 | an extracted request holds its whole header block if and only if the length sum did not wrap, and then exactly the announced number of body bytes follows |
| `Framing.ExtractStable` | connection.cpp:61-75 | bytes that arrive later never change a request that is already complete |
| `Framing.PlayConserves` | connection.cpp:30-75 | for every interleaving of arrivals and extractions, extracted requests followed by the buffer are all bytes that arrived, and the requests lead the framing of those bytes |
| `Framing.ChunkingIrrelevant` | connection.cpp:30-75 | two runs over the same bytes agree on what they extract however the bytes were chunked: each request is that of the framing of the whole stream, or empty beyond it; a drained run has all of the framing |
| `Framing.FramesLead` | connection.cpp:61-75 | extracting again and again yields the framing of the whole stream; what is left holds no complete request, or starts with one whose length sum wraps to nothing |
| `Framing.EmptyFrame` | connection.cpp:69-73 | a request is empty exactly when the sum wraps to zero, and extraction shortens the buffer exactly when it does not |
| `HeaderBlocks.HeaderEndOfBlock` | connection.cpp:62-65 | a block of CRLF-free lines ends at its own blank line whatever follows |
| `HeaderBlocks.AnnouncingBlock` | connection.cpp:35-59 | the announced number is read back from its line, in any letter case, after any blanks and whatever follows it, if no earlier line contains the key; a missing number, or one of 2^64 or more, counts as 0 |
| `HeaderBlocks.SilentBlock` | connection.cpp:38-39 | a block without the key announces 0 |
| `Connections.Connection.AppendReadData` | connection.cpp:30-33 | appends to the read buffer and changes nothing else |
| `Connections.Connection.ParseContentLength` | connection.cpp:35-59 | the two scanning loops compute the announced length, 0 for a missing key, no digits or a number of 2^64 or more |
| `Connections.Connection.ExtractOneRequest` | connection.cpp:61-75 | takes exactly the frame off the front of the buffer, or changes nothing |
| `Connections.Connection.AppendWriteData` | connection.cpp:77-84 | replaces whatever was to be sent by the given text |
| `Connections.Connection.SetMappedWriteData` | connection.cpp:86-94 | replaces whatever was to be sent by header and file |
| `Connections.Connection.ConsumeWriteData` | connection.cpp:101-111 | keeps the cursor in bounds and moves it as specified |
| `Connections.Connection.ClearWriteData` | connection.cpp:113-118 | leaves nothing to send |
| `Connections.Connection.GatherSegments` | http_server.cpp:249-261 | the vectors handed to `writev` |
| `Connections.Connection.WriteOut` | http_server.cpp:240-282 | for all kernel answers, failures and a closed connection included, bytes taken followed by bytes left are what was to be sent; it ends only when done, closed, blocked or failed, and says which |
| `Connections.LoadedUnsent` | connection.cpp:77-94 | loading a response leaves all of it, header then file, to be sent, and says whether there is anything |
| `Connections.GatherIsUnsent` | connection.cpp:96-99 | the gathered vectors are exactly the unsent bytes, and `hasWriteData` says whether there are any |
| `Connections.ConsumeDrops` | connection.cpp:101-111 | taking n bytes leaves exactly the rest, across the border of header and file |
| `Connections.SentExactly` | connection.cpp:86-111 | over every sequence of partial counts and resumptions, header and file are each sent once and in order, and write data is left exactly while bytes are missing |
| `UrlCodec.HexByteIsRead` | http_request.cpp:205-206 | the byte of an escape is what `strtol` with base 16 reads from its two characters, digits or not, cut to eight bits |
| `UrlCodec.AnyEscape` | http_request.cpp:203-213 | a `%` with two more characters is that one byte, whatever they are; one that lacks them stands for itself |
| `UrlCodec.UrlDecodeLoop` | http_request.cpp:200-216 | the decoding loop computes the specified decoding |
| `UrlCodec.DecodeInvertsEncoding` | http_request.cpp:200-216 | decoding inverts every way of percent-encoding a byte string |
| `UrlCodec.EveryByteStringEncodes` | http_request.cpp:200-216 | every byte string is the decoding of some encoding |
| `UrlCodec.DecodeDistributes` | http_request.cpp:200-216 | decoding distributes over concatenation, whatever follows, if and only if the left part does not end inside an escape |
| `HttpRequests.SplitExact` | http_request.cpp:14-16 | splitting at the first two spaces finds exactly the captures of the request-line pattern |
| `Bytes.TrimIs` | http_request.cpp:181-195 | trimming removes exactly the white space around a string |
| `Bytes.LowersLetters` | http_request.cpp:173-179 | folding a header key maps each capital letter to its small one and leaves every other byte |
| `HttpRequests.TrimLoop` | http_request.cpp:181-195 | the two loops compute the trimmed string |
| `HttpRequests.HttpRequest.ParseRequestLine` | http_request.cpp:86-115 | accepts the line and sets method, decoded path, version and keep-alive, or rejects it, as specified; `HttpRequests.ParseAccepts` says which lines these are |
| `HttpRequests.HttpRequest.ParseHeader` | http_request.cpp:120-143 | stores the trimmed value under the folded key and lets `connection` decide keep-alive, or rejects the line |
| `HttpRequests.HttpRequest.ParseBody` | http_request.cpp:148-153 | the body is everything after the blank line, if there is anything |
| `HttpRequests.HttpRequest.ParseLines` | http_request.cpp:30-80 | the loop over lines computes what the recursive machine computes, from any state |
| `HttpRequests.HttpRequest.ParseData` | http_request.cpp:27-81 | `parse` on any data, the empty one included |
| `HttpRequests.ParseAccepts` | http_request.cpp:27-143 | a request is accepted if and only if it has a blank line, its first line is captured by the pattern with the method spelt GET, POST, PUT or DELETE, and every later line before the blank one holds a colon |
| `RequestStreams.HeaderFound` | http_request.cpp:158-161 | after parsing a well-formed message, any spelling of a key finds the value of the message's last header with that key, and nothing if there is none |
| `HttpRequests.ParseMeetsBlank` | http_request.cpp:33-81 | an accepted parse stops exactly at the first blank line and the rest is the body; it runs out of data only without a blank line |
| `HttpRequests.FramerAndParserAgree` | http_request.cpp:50-64 | on every framed request the parser rejects a line or reaches the blank line where the framer did; an accepted non-GET request has a body of exactly the announced length |
| `HttpRequests.AcceptedIffNoWrap` | connection.cpp:69-73 | for a header block the parser accepts, the framed request is accepted if and only if the length sum did not wrap |
| `RequestStreams.FramedExactly` | connection.cpp:61-75 | a well-formed printed request is cut off exactly, whatever follows |
| `RequestStreams.ParsedExactly` | http_request.cpp:27-153 | parsing a well-formed printed request, with any white space around keys and values, gives back method, decoded path, version, folded last-wins headers, keep-alive and body |
| `RequestStreams.PipelinedRoundTrip` | connection.cpp:30-75 | any list of well-formed requests, concatenated, delivered in arbitrary chunks, framed and parsed, comes back in order as meant |
| `RequestStreams.WrappedRequestIsCut` | connection.cpp:69-73 | an announced length that wraps the sum cuts the request inside its own header, and it is not accepted |
| `RequestRouters.FormValue` | request_router.cpp:34-47 | the loop finds the decoded value of the first pair with the raw key |
| `RequestRouters.FormRoundTrip` | request_router.cpp:34-47 | it inverts form serialisation for keys that need no encoding, and skips parts without an equals sign |
| `RequestRouters.RouteAdmits` | request_router.cpp:10-32 | each status exactly when it is due: 405 for no POST, 400 for a missing field, 409 and 401 for credentials that are not accepted, 201 and 200 for those that are, by endpoint; always as JSON |
| `RequestRouters.OutcomesDiffer` | request_router.cpp:13-31 | two routed requests get the same words exactly if they get the same status |
| `HttpResponses.DecodeStable` | scripts/stress_test.py:11-34 | what follows a response does not change how it decodes |
| `HttpResponses.ClientReads` | scripts/stress_test.py:11-34 | for any block of header lines and bytes after it: the first line with the key decides, its number in any white space is the length of the body, and anything else, or more than there is, is an error; without such a line there is no body |
| `HttpResponses.TextRoundTrip` | http_response.cpp:294-307 | `buildText` output decodes to its header block and its body |
| `HttpResponses.HeaderRoundTrip` | http_response.cpp:309-322 | `buildHeader` output followed by the body decodes to exactly these |
| `HttpResponses.LinesTell` | http_response.cpp:294-322 | both kinds of header block tell their status, their type and their connection: one connection line, `close` or `keep-alive` as asked |
| `HttpResponses.StatusReads` | http_response.cpp:324-330 | `statusCodeFromResponse` reads the status back from whatever starts with its status line |
| `HttpResponses.ReasonPhrases` | http_response.cpp:128-151 | the phrases of the statuses the server answers with are those of the standard |
| `HttpResponses.PrepareOutcome` | http_response.cpp:249-292 | exactly the paths that contain `..` are forbidden, with no file; any other gets the file that opens, under its MIME type; if none opens, the root gets the welcome page and everything else is not found |
| `HttpResponses.PreparedRoundTrip` | http_response.cpp:249-292 | every branch of `prepare` announces exactly what it delivers |
| `HttpResponses.BadRequestRoundTrip` | http_server.cpp:338-344 | the fixed answer to a malformed request decodes to its text |
| `Service.ReplyDecodes` | http_server.cpp:327-389 | the answer to any bytes whatever is non-empty and reads back at the client as one response that covers exactly its bytes |
| `ServiceMeanings.AnsweredAsMeant` | http_server.cpp:327-389 | a well-formed request gets the status it is due by method, path, form, credentials and file, the file it asks for under its type, and the connection kept exactly if the request lets it stay, which the header block says too |
| `ServiceMeanings.RejectedCloses` | http_server.cpp:337-353 | a request that does not parse is answered 400 with `Connection: close`, and closes |
| `ServiceMeanings.ForbiddenIgnoresFiles` | http_response.cpp:255-258 | the answer to a path that contains `..` depends on nothing outside, on files in particular |
| `Service.LoadUnsent` | http_server.cpp:378-387 | loading an answer leaves exactly its bytes to be sent |
| `Service.StreamDelimited` | http_response.cpp:294-322 | the announced lengths delimit the stream of answers: a reader that keeps what it has not used gets exactly these answers, in order |
| `Timers.TimerHeap.AddOrUpdate` | timer_heap.cpp:3-11 | the plain map gets the new deadline, although an old node stays in the heap |
| `Timers.TimerHeap.Remove` | timer_heap.cpp:13-15 | the plain map forgets the descriptor |
| `Timers.TimerHeap.Top` | timer_heap.h:29-33 | some node with the earliest deadline |
| `Timers.TimerHeap.PopLive` | timer_heap.cpp:20-29 | a popped node counts if and only if it is the live one of its descriptor, and only then is that descriptor's timer forgotten |
| `Timers.TimerHeap.PopExpired` | timer_heap.cpp:17-32 | returns exactly the descriptors due, each once, in deadline order, and forgets only those |
| `Timers.TimerHeap.Accounting` | timer_heap.cpp:3-32 | heap size is additions minus pops and never below the number of live timers |
| `ServerTable.StepSound` | http_server.cpp:125-459 | every step of every thread keeps the descriptor invariant, with no hypothesis |
| `ServerTable.DescriptorsSafe` | http_server.cpp:154-183 | in every run a registered descriptor is open for the socket it was accepted for, `accept` overwrites no registration, and `close` has been called for an accepted connection once if its descriptor is no longer open and never before |
| `ServerTable.NoStrayClose` | http_server.cpp:411-431 | in every run every `close` about to be called, by whichever thread, is called on an open descriptor that is that of the connection it is meant for, no longer registered, and never closed before |
| `ServerTable.NoDescriptorLost` | http_server.cpp:411-431 | every open descriptor is registered, about to be, or being closed by exactly one thread, for the right connection |
| `ServerTable.TimersCover` | http_server.cpp:398-422 | every registered descriptor has a timer or is on the expired list being closed, and what is closed is what was registered when the timer fired |
| `ServerTimers.StepTimely` | http_server.cpp:226-302 | in every state of every run, a deadline moves only to the whole timeout from now, by a worker that owes it or at insertion, and a worker that owes it goes on only by moving it; a registration comes and goes with its deadline |
| `ServerTimers.ActivityCounts` | http_server.cpp:168-302 | in every run, once a connection has been accepted, read from until nothing was left, or answered and kept, its timer runs out no earlier than the whole timeout after that, or a worker is about to move it |
| `ServerTimers.ActiveIsKept` | http_server.cpp:226-302 | an active connection is not expired: while it waits in epoll its deadline is at least the whole timeout after each of its activities, and an expiry that holds it comes no earlier |
| `ServerTimers.IdleIsExpired` | http_server.cpp:398-409 | an idle connection is: after waiting in epoll for the whole timeout, it is among those the next expiry takes |
| `ServerTable.StopClosesAll` | http_server.cpp:61-83 | when the server has stopped, no accepted descriptor is open, and `close` was called exactly once for every connection ever accepted |
| `ServerStop.StopsOnlyWhenTold` | http_server.cpp:125-134 | in every run the server is told to end exactly if it was requested or a wait has failed; the loop leaves its rounds only then, not for an interrupted wait, and always once a wait has failed |
| `ServerStop.StopIsFinal` | http_server.cpp:61-83 | a server told to end never waits again, and a loop that has left its rounds stays out of them |
| `ServerStop.StopReached` | http_server.cpp:61-83 | from every state of every run with at least one worker, a request to stop can be followed through, with nothing else from outside, until the server has stopped |
| `ServerStop.TakesInAll` | http_server.cpp:154-183 | the loop takes in connections until `accept` refuses one: nothing else ends it |
| `ServerCloses.FailureCloses` | http_server.cpp:215-281 | after end of file, a failed read or a failed write, a connection that is still registered is in the hands of that worker, about to close it, with nothing served or written since |
| `ServerCloses.ClosedIsFinal` | http_server.cpp:316-387 | in every run a connection marked closed stays so: nothing more is appended to its buffer or taken from it, and no request of it is served |
| `ServerCloses.UnregisteredFirst` | http_server.cpp:424-431 | every `close` about to be called in a careful run finds the descriptor unregistered from epoll |
| `ServerClaims.ClaimsAlternate` | http_server.cpp:442-459 | in every run, between two dispatches of one connection object some worker has handed it back: it is never in two tasks |
| `ServerClaims.DispatchDecides` | http_server.cpp:442-451 | a dispatch goes on exactly if the connection is neither closed nor being processed, and then it is |
| `ServerFootprint.WorkerReach` | http_server.cpp:203-431 | every step of a worker, in whatever state, reaches no farther than its own descriptor, its own connection and the front of the queue; it starts no write for a closed connection and keeps a claim it does not release |
| `ServerFootprint.LoopConfined` | http_server.cpp:125-431 | a step of the loop moves no worker, lets epoll know only the descriptor it adds, and leaves closed connections and claims as they are |
| `ServerData.AppendFine` | http_server.cpp:209-215 | appending read bytes keeps served requests, buffer and input in step |
| `ServerData.NoRequestFine` | http_server.cpp:320-324 | without a complete request the connection is quiet and released |
| `ServerData.ExtractFine` | http_server.cpp:316-325 | an extracted request is the next one of the framing of what arrived |
| `ServerData.ReplyFine` | http_server.cpp:347-387 | an answer is loaded only when nothing is unsent, and extends the stream of answers |
| `ServerData.GatherFine` | http_server.cpp:243-262 | a live connection with data gathers exactly what is missing from the stream of answers; otherwise all of it is out |
| `ServerData.SendFine` | http_server.cpp:264-269 | the bytes the kernel takes are the next ones of the stream of answers |
| `ServerData.ConsumeFine` | http_server.cpp:265-269 | after consuming them, written and unsent bytes are again the stream of answers |
| `ServerData.ClearFine` | http_server.cpp:284-290 | after a complete write the connection is clean, or quiet if nothing is pending |
| `ServerData.ClaimFine` | http_server.cpp:442-451 | a connection in epoll's or the loop's hands is not being processed, so claiming it succeeds |
| `ServerToken.WorkerStepSteady` | http_server.cpp:203-396 | every block of a worker keeps every open connection in one place and its data in order |
| `ServerToken.HandleSteady` | http_server.cpp:136-148 | taking up an event keeps the invariant, and finds its connection |
| `ServerRuns.StepSteady` | http_server.cpp:125-459 | every step of a careful run keeps the invariant |
| `ServerRuns.CarefulRun` | http_server.cpp:125-459 | every state of every careful run satisfies it |
| `ServerTheorems.EndToEnd` | http_server.cpp:203-396 | for every accepted socket: requests served lead the framing of what arrived, bytes written are a prefix of the answers in order with all but the last complete, and nothing follows a closing answer |
| `ServerTheorems.EverythingAnswered` | http_server.cpp:316-396 | whenever a connection waits for input, every request framed by what was read has been answered and every answer is out completely |
| `ServerProgress.WorkerKeeps` | http_server.cpp:203-396 | every step of every worker, if the system answers kindly, keeps a connection that nobody has decided to close registered and on its way to its next answer, or ends it after a closing one |
| `ServerProgress.LoopKeeps` | http_server.cpp:125-201 | so does every step of the loop on its way back to its top |
| `ServerAnswers.NothingStranded` | http_server.cpp:125-409 | from every state of a careful run of a server that is not being stopped, a connection that nobody has decided to close can go on, without any further input, until all that has arrived is answered and it waits for more, or a closing answer is out and it is closed |
| `ServerTheorems.WrittenAnswersDelimited` | http_server.cpp:264-269 | a reader that keeps what it has not used gets from the bytes written so far exactly the complete answers, in order |
| `ServerTheorems.PeerIsUnderstood` | http_server.cpp:316-389 | a peer that pipelines well-formed requests has its messages served in order, each understood as meant; an answer closes the connection exactly if its message does not let it stay, and the first such message is the last one served |
| `ServerTheorems.ExactlyOnePlace` | http_server.cpp:185-201 | every registered connection is in exactly one place: accepting, armed, in the batch, dispatched, queued once, with one worker, or being closed after a hang-up |
| `ServerTheorems.OneWorkerEach` | http_server.cpp:203-396 | two workers never name the same open descriptor |
| `ServerTheorems.ArmedDiscipline` | http_server.cpp:391-392 | armed for reading: nothing unsent and no complete request buffered; armed for writing: bytes unsent; never marked as being processed |
| `ServerTheorems.SettersOverwriteNothing` | http_server.cpp:347-387 | the overwriting setters are called only when every earlier answer is written out |
| `ServerTheorems.NoEventDropped` | http_server.cpp:185-201 | neither guard of a dispatch ever drops an event |
| `ServerTheorems.SingleIffUnnamed` | http_server.cpp:154-183 | right after an `accept` every open descriptor is in a single place if and only if no queued or running task names the one it returned |
| `ServerTheorems.CarefulIffSingle` | http_server.cpp:189-199 | a run keeps every open descriptor in a single place all along if and only if it is careful |
| `ServerGrowth.RunGrows` | http_server.cpp:203-396 | along any run, with no hypothesis, requests served and bytes written are only ever added to |
| `ServerShutdown.WorkersProgress` | http_server.cpp:203-396 | in every state of every run, every step of a worker, whatever the system answers it, leaves fewer answers to load, or as many and less to do |
| `ServerShutdown.DrainEnds` | http_server.cpp:61-68 | however a run that has come to the drain of `stop` goes on without further input, the workers take finitely many steps, and if one of them moves as long as one can, the drain is complete in the end |
| `ServerShutdown.DrainBound` | http_server.cpp:61-68 | in a careful run they can take no more steps than there was work, and until all is drained one of them can take a step |
| `Clients.ScanHeaders` | scripts/stress_test.py:21-25 | the client's header scan finds the first announced length |
| `Clients.RecvHeaders` | scripts/stress_test.py:12-17 | grows the data until it holds a blank line or the stream ends, and takes no chunk beyond that |
| `Clients.RecvBody` | scripts/stress_test.py:27-32 | grows the body until it is long enough or the stream ends, and takes no chunk beyond that |
| `Clients.RecvResponse` | scripts/stress_test.py:11-34 | for every chunking one call returns what decoding the whole stream gives, and takes the fewest chunks that decide it |
| `Clients.RecvMany` | scripts/stress_test.py:47-56 | successive calls on one socket each go on with the chunks the last one left, and stop at the first failure |
| `Clients.CallsSucceed` | scripts/stress_test.py:47-56 | if every response of a stream ends where a chunk does, successive calls return all of them, whatever follows |
| `Clients.CallsReturnIff` | scripts/stress_test.py:11-34 | for every chunking of a stream of responses, successive calls return exactly these if and only if every response ends where a chunk does |
| `Clients.CoalescedIsLost` | scripts/stress_test.py:27-34 | of two responses received in one chunk the client returns the first and throws the second away, and its next call fails |
| `ServerClient.OneOutstandingIsServed` | scripts/stress_test.py:47-56 | a client of the server that sends each request only after its last call has returned gets exactly the server's answers from its calls, one for each request, in order, however the kernel cuts the stream, and every request was understood as meant |
| `ServerClient.CoalescedAnswerIsLost` | scripts/stress_test.py:27-34 | without that discipline, two consecutive answers of the server that arrive in one chunk make the second call fail |
| `ServerReuse.ReuseBreaksExclusion` | http_server.cpp:189-191 | without the hypothesis two workers can be given the same live descriptor |
| `ServerReuse.ReuseBreaksOrder` | http_server.cpp:207-214 | without it, what they read can be appended in the wrong order, and a request is served that is not the first of what the peer sent |
| `ServerReuse.ReuseLosesAnswer` | http_server.cpp:378-387 | without it, an answer can be loaded over an earlier one of which nothing was written, and that one is lost |
| `ThreadPools.StepSound` | thread_pool.cpp:11-59 | every step of `start`, `stop`, `enqueue` and the workers keeps the pool's invariant |
| `ThreadPools.TasksConserved` | thread_pool.cpp:32-58 | the tasks of the calls of `enqueue` before `stop` are, in that order, the started and then the queued ones; each started one is running on one worker or finished, and as many have finished as have returned |
| `ThreadPools.NoLostWakeUp` | thread_pool.cpp:32-56 | while a worker sleeps, at least as many wake-ups are under way as tasks are queued |
| `ThreadPools.StopDrains` | thread_pool.cpp:17-30 | when `stop` has returned, every task pushed before it has run to its end if and only if `start` had launched a worker or nothing was pushed |
| `ThreadPools.NoWorkersNoDrain` | thread_pool.cpp:17-30 | a pool without workers loses what was pushed |
| `ThreadPools.StopProgresses` | thread_pool.cpp:24-28 | a joining `stop` always has a step to wait for, and every step of a worker leaves less to do |
| `Loggers.LinesConserved` | logger.cpp:60-88 | over any starts and shutdowns, written lines, batch and queue are the lines of all calls, in order |
| `Loggers.ShutdownDrains` | logger.cpp:29-39 | take any run up to the clearing of the flag and go on until `shutdown` joins: by then the lines of all calls before the flag was cleared have been written |
| `Loggers.NoLostWakeUp` | logger.cpp:60-80 | a sleeping worker has a notification coming for every queued line, and one that is being joined never sleeps |
| `Loggers.LinesGoWhereTold` | logger.cpp:82-86 | every line of a batch goes to the path `init` was last given before the batch's file was opened |
| `DatabasePools.DatabasePool.Init` | database_pool.cpp:49-84 | stops at the first failed connection; otherwise every handle is available, the first one at the back |
| `DatabasePools.DatabasePool.Acquire` | database_pool.cpp:86-94 | the front handle goes to a new lease, or the caller goes on waiting |
| `DatabasePools.DatabasePool.Release` | database_pool.cpp:96-102 | the handle goes to the back of the queue |
| `DatabasePools.Lease.MoveFrom` | database_pool.cpp:19-24 | move construction hands the handle over and empties the source |
| `DatabasePools.Lease.MoveAssign` | database_pool.cpp:26-37 | move assignment returns the old handle and hands the other over; to itself it changes nothing |
| `DatabasePools.Lease.Destroy` | database_pool.cpp:13-17 | destruction returns the handle, if there is one |
| `DatabasePools.FreshPartition` | database_pool.cpp:68-69 | after `init` with distinct handles, all of them are available and none is leased |
| `DatabasePools.ApplyKeeps` | database_pool.cpp:13-37 | every operation keeps available handles and live leases a partition of all handles |
| `DatabasePools.LeasesConserved` | database_pool.cpp:13-102 | over any run of operations they partition all handles, none in two places |
| `DatabasePools.AllComeBack` | database_pool.cpp:13-102 | once no lease holds a handle, every handle is available again, once |

## Left out

- Socket set-up, the epoll and `fcntl` wrappers, `mmap` and reading files: they are steps of the kernel, or, for a
  file, an arbitrary byte string that opening it gives (`World`). Registering an accepted socket with epoll is taken
  to succeed.
- MySQL and the user service: whether credentials are accepted is part of `World`, chosen when a request is served.
- Real time: the clock is an integer that never goes back. `touch` and `idleForAtLeast` do not decide expiry.
- `std::regex`: the request line is split explicitly, and `HttpRequests.SplitExact` ties the split to the pattern.
- The MIME table: any text without a carriage return. `HttpResponse::build`: the server uses `prepare`.
- Console output, timestamps, environment variables and the statistics of the stress test.
- Memory-model effects of unsynchronised reads of `running_` and `filepath_`: each is one atomic read.
- The server's queue hands its front task to an idle worker in one step; the condition variable behind that is in
  `ThreadPools`. The model's `stop` waits for an empty queue and idle workers, which is what the pool guarantees for at
  least one worker thread.
- `start`, `stop`, `init` and `shutdown` of the pool and of the logger are called by one controlling thread each, and
  opening the log file succeeds.
- The wait inside `acquire`: a caller that finds no handle goes on waiting; who is woken when one returns is not modelled.
- `Clients.ScanHeaders`: Python's `int` also takes signs, underscores and surrounding white space of other kinds;
  the model counts anything but digits as an error.
- `Timers.TimerHeap.Top`: which of several nodes with the earliest deadline comes first is left open, as in the
  standard library's priority queue.
- `Clients.RecvMany`: models the receiving calls, not the sending and the time-outs between them. A socket delivers a
  list of chunks; an empty `recv` is the end of that list.
- `ServerShutdown.DrainEnds`: a peer that goes on sending can keep a read loop busy, as in the code.
- `ServerAnswers.NothingStranded`: says that the server can go on so, whatever came before, not that the scheduler and the
  kernel do so. It leaves out connections that a thread has decided to close, or whose idle timer has run out: of these
  some are closed before they are answered.
- `ServerTheorems.ExactlyOnePlace`: a connection that idle expiry closes while a worker is busy with it counts as that
  worker's until its registration is erased.

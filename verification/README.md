# Verified model of NBRaft's concurrency and RPC layers

NBRaft's Raft classes are empty; what the repository implements is the layer below them: a two-lock concurrent queue
with stealing, two thread pools, a framed byte-stream session, and JSON-RPC calls matched to their replies by id. This
project models that layer in Dafny and proves what its users rely on, for every run and every interleaving.

`dafny verify dfyconfig.toml` checks everything.

## What is proved

**The concurrent queue** (`AtomicDeque`, `QueueProtocol`, `QueueInvariant`, `QueueSteps`, `QueueRefinement`,
`QueueTheorems`, `QueueConservation`, `QueueRaces`, `QueueProgress`, `QueueAnswers`, `QueueWaiting`, `QueueCounter`,
`ConcurrentQueue`). `QueueProtocol` gives every operation as the sequence of its statements: one step for each write
to a node, each access to the two end pointers, each lock operation, each access to the stop flag and the counter. The
state holds what the program holds (a heap of nodes with `data`, `next` and `prev`, `head`, `tail`, lock owners, stop
flag, 32-bit counter, one program counter for each thread) and nothing else. The allocator may return any address that
is not allocated, so freed addresses are reused; moved-out cells are told apart from filled ones; a step that touches
a freed node, reads an empty or moved-out cell, or frees a node that still owns another may lead to any state at all.
For any number of threads it is then proved that

- every run refines the atomic deque, so the queue is linearizable (`RunRefines`): each call takes effect at one
  instant between call and return, and its answer is true of the list at that instant (`AnswersAreTrue`);
- a waiting pop called after a stop takes nothing and returns nothing, whatever is queued (`StoppedPopTakesNothing`);
  a pop is parked only on an empty, running queue (`ParksOnlyOnEmpty`), a timed one gives up only when stopped or late
  (`TimedPopGivesUpLate`), and between waits a thread returns within 15 steps of its own (`OwnStepsAreBounded`);
- no such faulty step is ever reached (`NoUnsafeStep`), and two threads never have next steps on the same plain location
  (`NoDataRace`). A step accesses at most the locations listed for it: it writes no others (`WritesInFootprint`), and its
  outcome depends on no others (`ReadsInFootprint`). This is also what makes a model with interleaved steps adequate for
  the C++ program;
- nothing is lost, duplicated or delivered from a stale cell: the values that pushes have linked are those that pops
  and steals have taken and those in the list, and without steals order is first-in first-out (`NothingLost`); each
  thread links what its callers pass and returns what it takes (`CallersAreServed`), so with nothing in progress the
  values passed are those returned and those in the list (`NothingLostForCallers`); the list is well linked both ways
  (`ListIsWellLinked`); a popper that saw a non-empty queue under the head lock alone keeps it (`FrontIsStable`); the
  locks cannot deadlock (`NoDeadlock`); the counter lags by exactly the operations in flight (`CounterLags`), and no
  node leaks (`QuiescentQueue`).

`ConcurrentQueue.dfy` holds the same bodies on real heap objects, each stated by the same `AtomicDeque.Apply`.

**The session** (`Packet`, `Framing`, `WritePump`, `Session`, `SessionLink`). The class `Session` has the buffers and
handlers; its methods are stated by the functions from which the system of sender, wire and receiver in `SessionLink`
is built. A second write could be started while one is outstanding, and its bytes would mix with the first's; that
this never happens is proved (`OneWriteAtATime`). Whatever fails and however the stream is cut up, the delivered
messages are the first accepted ones, each once, and the receiver closes for size exactly at the first message above
its limit. A delivered message is unaltered exactly if its data was shorter than 65536 bytes (`DeliveredIffShort`),
and everything callers passed arrives unaltered exactly if none of it was above the limit of 1024 bytes
(`DeliveredIffSmall`). The packets `send` takes are, in order, those written and those still queued, and a refused
call changes nothing (`PacketsKeepTheirOrder`).

**RPC correlation** (`CallTable`, `RpcClient`, `RpcClientStub`, `RpcServer`, `RpcSystem`, `RpcAccounts`, over the
objects of `JsonRpc`). Each call carries a serial number that no code reads. With any losses, timeouts, reordering and
reuse of ids, a record is only ever completed by the reply to the call that made it, and its callback runs at most
once. What the server object does with a packet and a task is what the system does at the corresponding event
(`ArrivalIsAccept`, `RunTaskIsEvent`). The state is accounted for by the events: a record is answered exactly if the
reply to its call was delivered (`AnsweredIffDelivered`), an id is filed exactly until its own stub removes it
(`FiledIffNotRemoved`), and what is on the way is what was sent and has not been lost or handled (`NothingVanishes`).
From caller to caller the method, the parameters, the result and the id stay what they were (`CallComesBack`).

**Thread pools** (`SimplePool`, `SimplePoolOrder`, `SimpleThreadPool`, `ParallelPool`, `ParallelPoolOrder`,
`ParrallenThreadPool`). Conservation, the idle count, the bound on what still starts after shutdown and that every
worker then leaves; and, told by the submitters' and workers' events, which tasks were accepted in which order and
which one each worker takes (`FirstComeFirstServed`, `EachQueueInOrder`), and the even filling of the round robin
(`FilledEvenly`).

## Where the code differs from what its names promise

- `createNotifyCallRequest` has two overloads. The variadic one goes through the constructor that takes an id and so makes
  a call with the empty id, not a notification (`VariadicNotifyIsACall`).
- `JsonRpcErrorFactory::createFromInt` tells 0 to 4 apart, but is called with JSON-RPC codes, so a parse error is reported
  as InternalError (`OnlyInternalErrorKeepsItsName`).
- A call whose reply has not come when the stub looks keeps its id for good, and later calls with that id are refused
  (`TimeoutAbandons` says exactly when, `TimedOutIdStaysTaken` and `TimedOutIdIsRefused` what follows;
  `TimeoutRefusesNextCall` is such a run). This is what makes correlation hold: freeing the id of a call that was given up
  lets a later reply complete the wrong record, once a caller uses the id again, if and only if something about that
  call is still in flight (`EarlyRemovalIsSafeIff`).
- `Session::send` accepts what the receiver will not take. Once the receiver has read all it will, the callers' data
  is delivered if and only if none of it is above 1024 bytes (`DeliveredIffSmall`). A longer message is accepted
  without an error; up to 65531 bytes it closes the receiver (`LargeMessageCloses`). From 65536 bytes on it is
  altered, because the length is converted to 16 bits: what is sent is the first `length mod 65536` bytes, so a
  delivered message is the data passed if and only if that is shorter than 65536 bytes (`DeliveredIffShort`); 65536
  bytes arrive as the empty message (`LongMessageArrivesEmpty`).
- The size of a packet is the body's size plus four in 16 bits, which leaves room for the frame exactly up to 65531 bytes
  (`SizeFitsIff`).
- Header fields are copied as four bytes from and into two-byte variables. The two extra bytes are arbitrary in the model,
  and everything holds for every value of them.

## Model

| member | source | states |
|---|---|---|
| AtomicDeque.RunsAreExplained | NBRaft/concurrentqueue.h:11-189 | in every run of the atomic deque the content is what its history of operations, each with the answer it gave, leaves behind |
| AtomicDeque.Conservation | NBRaft/concurrentqueue.h:156-189 | for every legal history, pushed values = popped + stolen + still queued, as multisets |
| AtomicDeque.FirstInFirstOut | NBRaft/concurrentqueue.h:30-36 | without steals, popped values followed by the queued ones are the pushed ones in order |
| QueueProtocol.WrapSteps | NBRaft/concurrentqueue.h:34-34 | adding and subtracting one on the wrapped 32-bit counter follows the integers |
| QueueInvariant.GoodIsSafe | NBRaft/concurrentqueue.h:24-189 | under the invariant no step touches a freed node, reads an empty or moved-out cell, advances past the end or frees a node that owns another |
| QueueInvariant.UndisturbedLocal | NBRaft/concurrentqueue.h:65-73 | what a thread at any statement relies on survives every change that the locks and node ownership allow the others |
| QueueInvariant.OthersUndisturbed | NBRaft/concurrentqueue.h:156-189 | a step that changes only what its thread's locks and own node allow is such a change for every other thread |
| QueueInvariant.Rebuild | NBRaft/concurrentqueue.h:24-189 | list shape, lock ownership, node ownership and every thread's assertions hold again after any step that meets its local obligations |
| QueueSteps.PushTailStep | NBRaft/concurrentqueue.h:163-169 | moving the tail appends the new node to a well-formed list while poppers run |
| QueueSteps.AdvanceStep | NBRaft/concurrentqueue.h:30-36 | advancing the head under the head lock alone drops the front node and keeps the list well formed, `prev` of the new front dangling |
| QueueSteps.StealTailStep | NBRaft/concurrentqueue.h:183-185 | moving the tail back drops the last node and leaves its moved-out cell in the dummy |
| QueueSteps.StepKeepsGood | NBRaft/concurrentqueue.h:24-189 | every step of every thread is safe and keeps the invariant, for the list changed only by tail moves and head advances |
| QueueRefinement.OwnMove | NBRaft/concurrentqueue.h:24-189 | each statement is one call, effect or return of the atomic deque, or nothing |
| QueueRefinement.UndisturbedStatus | NBRaft/concurrentqueue.h:65-84 | no other thread changes how far an operation has come or what it will answer |
| QueueTheorems.StepRefines | NBRaft/concurrentqueue.h:24-189 | one step of one thread is one step of the atomic deque or none |
| QueueTheorems.RunRefines | NBRaft/concurrentqueue.h:24-189 | every run of any number of threads refines a run of the atomic deque: push appends, pops take the front, steals the back, empty answers only when empty |
| QueueAnswers.ApplyIffMeets | NBRaft/concurrentqueue.h:30-189 | the abstract deque's operations are exactly: push appends, a pop or steal with a value takes it off its end, the others change nothing, and Nothing is said only of an empty queue or, by waiting pops, a stopped one |
| QueueAnswers.AnswersAreTrue | NBRaft/concurrentqueue.h:30-189 | in every run each returned answer is an answer to the operation called and true of the list at one instant between call and return |
| QueueAnswers.StoppedPopTakesNothing | NBRaft/concurrentqueue.h:45-63 | in every run a waiting pop called on a stopped queue never takes a value, is never parked and answers Nothing |
| QueueAnswers.StoppedIffExited | NBRaft/concurrentqueue.h:95-98 | the stop flag is set exactly after some Exit has stored it |
| QueueAnswers.MovedOutOnce | NBRaft/concurrentqueue.h:162-189 | between two steps that move a value out of the same cell a push has filled it again, so the stale cell a steal leaves is never delivered |
| QueueWaiting.OwnStepsAreBounded | NBRaft/concurrentqueue.h:24-189 | from any state a thread makes at most 15 steps of its own before it has returned or is parked |
| QueueWaiting.EndsByReturning | NBRaft/concurrentqueue.h:24-189 | an operation ends exactly by returning its answer |
| QueueWaiting.ParksOnlyOnEmpty | NBRaft/concurrentqueue.h:38-43 | a pop is parked only if the queue was empty while it held the head lock, no stop was set and it has not timed out |
| QueueWaiting.TimedPopGivesUpLate | NBRaft/concurrentqueue.h:100-110 | a timed pop answers Nothing only on a stopped queue or after its time is over |
| QueueWaiting.TimedPopEnds | NBRaft/concurrentqueue.h:100-106 | a timed pop whose time is over is not parked again |
| QueueTheorems.RunIsExplained | NBRaft/concurrentqueue.h:156-189 | every run has an abstract run that it refines at each state, whose history balances against the values in the live nodes |
| QueueConservation.MovesExist | NBRaft/concurrentqueue.h:24-189 | every run is made by some sequence of moves, so the next three hold for all runs |
| QueueConservation.NothingLost | NBRaft/concurrentqueue.h:156-189 | in every reachable state the values linked by the run's pushes = those its pops and steals took out + those in the live nodes, and in link order without steals |
| QueueConservation.CallersAreServed | NBRaft/concurrentqueue.h:100-189 | each thread has linked the values passed to it, in order, and returned the values it took, except the one in progress |
| QueueConservation.NothingLostForCallers | NBRaft/concurrentqueue.h:100-189 | whenever no operation is in progress, the values passed to pushes = those returned to callers + those in the live nodes |
| QueueTheorems.ListIsWellLinked | NBRaft/concurrentqueue.h:30-36 | in every reachable state `next` leads from the front to the tail without repetition and `prev` leads back to the front |
| QueueTheorems.NoUnsafeStep | NBRaft/concurrentqueue.h:30-115 | no reachable step uses freed memory, an empty or stale cell, a dangling `prev`, or pops an empty list |
| QueueRaces.WritesInFootprint | NBRaft/concurrentqueue.h:30-189 | a step leaves every location outside its footprint as it was, a node's being live included |
| QueueRaces.ReadsInFootprint | NBRaft/concurrentqueue.h:30-189 | in two memories that agree on a step's footprint and the stop flag, the step is equally safe, leads to the same place and leaves the same in the footprint |
| QueueRaces.FootprintIsLive | NBRaft/concurrentqueue.h:156-189 | every node a step accesses is live, except the one it allocates |
| QueueRaces.FootprintAllowed | NBRaft/concurrentqueue.h:156-189 | every location a step touches is covered by its locks or its own node, a node being allocated aside |
| QueueRaces.OneToucher | NBRaft/concurrentqueue.h:156-189 | no location is covered for two threads at once, although push and pop hold different locks |
| QueueRaces.NoDataRace | NBRaft/concurrentqueue.h:65-84 | in every reachable state the footprints of the next steps of two threads are disjoint, the writes to a new node included, given that the allocator hands out distinct free nodes |
| QueueProgress.NoDeadlock | NBRaft/concurrentqueue.h:24-43 | while some thread is inside an operation and not parked, some such thread has a step |
| QueueProgress.FrontIsStable | NBRaft/concurrentqueue.h:65-84 | after a popper saw head != tail, the queue stays non-empty and the front node unchanged through every step of every other thread |
| QueueCounter.CounterLags | NBRaft/concurrentqueue.h:171-187 | the counter is the length less the pushes not yet added plus the removals not yet subtracted, modulo 2^32, and exactly so below 2^31 |
| QueueCounter.QuiescentQueue | NBRaft/concurrentqueue.h:86-88 | with no operation in progress the counter is the length, exactly the list's nodes are allocated, and both locks are free |
| ConcurrentQueues.ConcurrentQueue.constructor | NBRaft/concurrentqueue.h:86-88 | a new queue is valid, empty and not stopped |
| ConcurrentQueues.ConcurrentQueue.Push | NBRaft/concurrentqueue.h:156-173 | the content is the old one with the value at the back; the old nodes stay, a fresh dummy is added |
| ConcurrentQueues.ConcurrentQueue.PopHead | NBRaft/concurrentqueue.h:30-36 | unlinks exactly the first node and counts down |
| ConcurrentQueues.ConcurrentQueue.TryPop | NBRaft/concurrentqueue.h:65-73 | takes the front value, or nothing exactly on an empty queue |
| ConcurrentQueues.ConcurrentQueue.TryPopInto | NBRaft/concurrentqueue.h:75-84 | the same for the overload that moves the value out first |
| ConcurrentQueues.ConcurrentQueue.WaitAndPop | NBRaft/concurrentqueue.h:38-53 | blocks exactly on an empty running queue; otherwise Nothing exactly if stopped, else the front value |
| ConcurrentQueues.ConcurrentQueue.WaitAndPopInto | NBRaft/concurrentqueue.h:55-63 | the same for the overload that moves the value out first |
| ConcurrentQueues.ConcurrentQueue.WaitAndPopTimeout | NBRaft/concurrentqueue.h:100-115 | takes the front value, or nothing exactly on an empty or stopped queue |
| ConcurrentQueues.ConcurrentQueue.TrySteal | NBRaft/concurrentqueue.h:175-189 | takes the back value, or nothing exactly on an empty queue; the stale cell stays in the new dummy |
| ConcurrentQueues.ConcurrentQueue.Empty | NBRaft/concurrentqueue.h:150-154 | answers whether the content is empty |
| ConcurrentQueues.ConcurrentQueue.Exit | NBRaft/concurrentqueue.h:95-98 | sets the stop flag and touches no value |
| Packets.LengthOfHeader | NBRaft/packet.cpp:52-57 | the length read from a header is the one written, for every value of the two spare bytes |
| Packets.HeaderIsBigEndian | NBRaft/packet.cpp:54-55 | the header is the length in network order, the more significant byte first, then the two spare bytes |
| Packets.SizeFitsIff | NBRaft/packet.cpp:52-52 | the 16-bit packet size holds header and body if and only if the body has at most 65531 bytes, and is less than the header above |
| Packets.Packet.OfSize | NBRaft/packet.cpp:11-13 | a buffer of the given size, all zero |
| Packets.Packet.Copy | NBRaft/packet.cpp:24-29 | a copy with a buffer of its own and the same bytes |
| Packets.Packet.Send | NBRaft/packet.cpp:52-57 | the buffer is the header followed by exactly the body |
| Packets.Packet.Assign | NBRaft/packet.cpp:31-45 | takes over the bytes in a buffer of its own, and leaves a self-assignment alone |
| Packets.Packet.Clear | NBRaft/packet.cpp:63-66 | overwrites every byte with zero |
| Framing.FeedInChunks | NBRaft/session.cpp:78-143 | how the stream is cut into chunks makes no difference to the receiver |
| Framing.FeedFrame | NBRaft/session.cpp:78-143 | one frame is delivered as its body, or closes the session if the body is above 1024 bytes |
| Framing.RoundTrip | NBRaft/session.cpp:78-143 | the frames of any messages are delivered as exactly the longest prefix within the limit, and the session closes if and only if one is above it |
| Framing.DeliveredFromPart | NBRaft/session.cpp:116-143 | from any part of such a stream only the first messages are delivered, in order |
| WritePump.OneWriteAtATime | NBRaft/session.cpp:41-68 | in every run at most one write is outstanding, and until one fails exactly one if packets are queued and none otherwise; it is for the front packet, and at most 64 packets are queued |
| WritePump.FailureIsFinal | NBRaft/session.cpp:145-169 | after a failed write the failed packet stays in front, no write is outstanding, and no later call starts or completes one |
| WritePump.PacketsKeepTheirOrder | NBRaft/session.cpp:41-169 | in every run the packets taken, in call order, are those written successfully followed by those queued, and a refused send changes nothing |
| WritePump.OpenUntilClosed | NBRaft/session.cpp:35-39 | the sender is open exactly until it is closed or a write fails |
| Sessions.Session.Start | NBRaft/session.cpp:18-33 | asks for the first header, and closes if a connect handler throws |
| Sessions.Session.Send | NBRaft/session.cpp:41-68 | refuses at the bound; otherwise queues the packet of the clipped message and starts a write exactly if the queue was empty |
| Sessions.Session.Put | NBRaft/session.cpp:58-62 | the socket's progress on an outstanding write changes nothing but that write |
| Sessions.Session.HandleWrite | NBRaft/session.cpp:145-169 | a successful write drops the front packet and starts the next; a failed one closes and keeps it |
| Sessions.Session.HandleHeadRead | NBRaft/session.cpp:78-114 | a full header within the limit asks for that many body bytes in a fresh buffer; anything else closes |
| Sessions.Session.HandleBodyRead | NBRaft/session.cpp:116-143 | delivers the body's bytes, which clearing the buffer does not change, and asks for the next header |
| SessionLink.DeliveredIsPrefix | NBRaft/session.cpp:41-169 | at every reachable state of sender, wire and receiver the delivered messages are a prefix of the accepted ones, none above the limit |
| SessionLink.OfferedIsGiven | NBRaft/session.cpp:41-52 | the accepted messages are made of the data of exactly those calls of send that found fewer than 64 packets queued, in call order |
| SessionLink.SenderOpenUntilClosed | NBRaft/session.cpp:35-39 | the sending session is open exactly until closed or failed, and puts no byte on the wire after that |
| SessionLink.StoppedIffBroken | NBRaft/session.cpp:106-142 | the receiver is stopped exactly if a read has failed or a data handler has thrown |
| SessionLink.SmallMessageArrives | NBRaft/session.cpp:78-143 | every message of 1 to 1024 bytes is delivered in some run, after which the receiver waits for the next header |
| SessionLink.DeliveredIffShort | NBRaft/session.cpp:41-52 | every delivered message is the data of its call clipped to 16 bits of length, and is those data if and only if they are shorter than 65536 bytes |
| SessionLink.LongMessageArrivesEmpty | NBRaft/packet.cpp:52-57 | in some run 65536 bytes are accepted and delivered as the empty message |
| SessionLink.DeliveredIffSmall | NBRaft/session.cpp:41-143 | when the receiver has read all it will and no handler is due, the callers' data are delivered, unaltered, if and only if none is above 1024 bytes |
| SessionLink.LargeMessageCloses | NBRaft/session.cpp:92-96 | for all data of 1025 to 65531 bytes some run accepts it and closes the receiver with nothing delivered |
| SessionLink.NothingMissing | NBRaft/session.cpp:41-169 | when no read has failed and the receiver has read all it will (everything written and read, or closed for size), exactly the messages up to the first too large one are delivered or due for delivery, and delivered once no handler is due; the receiver is closed if and only if there is one |
| SessionLink.ClosesAtFirstLarge | NBRaft/session.cpp:92-96 | the receiver closes for size exactly at the first accepted message above the limit, having delivered all before it |
| SessionLink.WriteSucceedsKept | NBRaft/session.cpp:148-160 | a completed write leaves the byte stream the concatenation of the accepted frames |
| CallTable.SectionsKeepTable | NBRaft/rpcclient.cpp:19-100 | every critical section keeps ids and records matched, and a callback has run exactly if its record has a response; the client's class invariant holds it |
| RpcClients.RpcClient.CallReturnProcedure | NBRaft/rpcclient.cpp:19-42 | refuses an id in use and changes nothing; otherwise files one fresh record and sends the request if running |
| RpcClients.RpcClient.FileRecord | NBRaft/rpcclient.cpp:24-26 | makes a fresh record for the request and files it under its id |
| RpcClients.RpcClient.GetReturnCallRecord | NBRaft/rpcclient.cpp:62-69 | the record filed under the id, or a fresh empty one |
| RpcClients.RpcClient.RemoveCallRecord | NBRaft/rpcclient.cpp:77-83 | drops exactly the entry of the id |
| RpcClients.RpcClient.OnDataReady | NBRaft/rpcclient.cpp:85-100 | completes and calls back exactly the record filed under the response's id; anything unparsable changes nothing |
| RpcClientStubs.RpcClientStub.RpcReturnCall | NBRaft/rpcclientstub.cpp:44-61 | returns the record its own call made, or an empty one that changed nothing if not connected or the id is in use |
| RpcClientStubs.AnsweredIffReplied | NBRaft/rpcclientstub.cpp:49-57 | the call is answered, and its id freed, exactly if a reply with its id arrived during the sleep; other ids are untouched |
| RpcClientStubs.EveryReplyCounts | NBRaft/rpcclient.cpp:93-98 | the callback runs once for each reply with the id that arrives, and the record keeps the last one |
| RpcServers.RpcServer.OnDataReady | NBRaft/rpcserver.cpp:28-51 | queues one task for a call or notification and answers anything else with a plain text |
| RpcServers.RpcServer.RunTask | NBRaft/rpcserver.cpp:53-90 | takes exactly the task run out of the pool and sends what answers it |
| RpcServers.TasksAreForTheirSession | NBRaft/rpcserver.cpp:28-51 | every packet gives one task for its session with the request unchanged, answered exactly if it has an id, or one text to that session |
| RpcServers.AnswerIsForItsCall | NBRaft/rpcserver.cpp:53-80 | at most one reply, exactly if the task is a well-formed call of a known method and the handler answers: a response with the handler's result, to its session and with its id |
| RpcServers.CallComesBack | NBRaft/rpcserver.cpp:53-80 | a call made by a client comes back as one packet with the handler's result, its version and its id, exactly if its method is known |
| RpcServers.ArrivalIsAccept | NBRaft/rpcserver.cpp:28-51 | the server's handling of a packet is the system's event that accepts it, for calls, notifications and unparsable texts |
| RpcServers.RunTaskIsEvent | NBRaft/rpcserver.cpp:53-90 | running any task of the pool is the system's event that answers or drops its call, and is always possible there |
| RpcSystem.FlightMoves | NBRaft/rpcserver.cpp:53-80 | no step multiplies what is in flight about a call |
| RpcSystem.RepliesMatchCalls | NBRaft/rpcclient.cpp:85-100 | in every run a record's response is the reply to exactly the call that made it, and its callback has run once if and only if it has one |
| RpcAccounts.AnsweredIffDelivered | NBRaft/rpcclient.cpp:85-100 | in every run a record has a response if and only if the reply to its own call has been delivered |
| RpcAccounts.FiledIffNotRemoved | NBRaft/rpcclient.cpp:19-83 | in every run an id is filed under exactly the records made for it that their own stub has not removed |
| RpcAccounts.NothingVanishes | NBRaft/rpcserver.cpp:28-90 | the requests, tasks and replies in flight about any item are exactly those sent, accepted or answered less those lost, handled or delivered |
| RpcAccounts.CallsComeBack | NBRaft/rpcclientstub.cpp:44-61 | a call returns an empty record exactly if its stub is not connected or its id was in use when it registered, else the record it made then |
| RpcAccounts.CallsReturn | NBRaft/rpcclientstub.cpp:44-61 | a call that is entered ends only by returning a record |
| RpcAccounts.CallsEnd | NBRaft/rpcclientstub.cpp:44-61 | a stub in a call always has a next event, and each of its events brings it nearer to the end |
| RpcAccounts.AnsweredCall | NBRaft/rpcclientstub.cpp:44-61 | there is a run in which a call is sent, run, answered, completed once, returned and its id freed |
| RpcSystem.StubsKeepTheirRecords | NBRaft/rpcclientstub.cpp:50-57 | the record a stub looks up by id is the one it filed, and the entry it removes by id is its own and answered |
| RpcSystem.TimedOutIdStaysTaken | NBRaft/rpcclientstub.cpp:49-57 | the id of a call that timed out stays filed under its own record in every later state |
| RpcSystem.TimedOutIdIsRefused | NBRaft/rpcclient.cpp:21-23 | every later call with that id returns an empty record and changes nothing |
| RpcSystem.TimeoutAbandons | NBRaft/rpcclientstub.cpp:52-57 | when a stub looks at its record, its id is left taken for good if and only if no reply has come |
| RpcSystem.TimeoutRefusesNextCall | NBRaft/rpcclientstub.cpp:44-61 | there is a run in which a call times out and the next one with its id is refused |
| RpcSystem.EarlyRemovalIsSafeIff | NBRaft/rpcclientstub.cpp:53-56 | if the id of a call that was given up were freed, and some caller is free to use it again, every later run would still match replies to calls if and only if nothing about that call is in flight |
| RpcSystem.EarlyRemovalMisdelivers | NBRaft/rpcclientstub.cpp:53-56 | freeing and reusing the id of an undelivered reply makes that reply complete the new record |
| SimplePool.TasksArePartitioned | NBRaft/simplethreadpool.cpp:14-41 | in every run each accepted task is queued, finished or held by exactly one worker, and tasks leave the queue in the order of `accepted`, which is the order of submission (`AcceptedIsSubmitted`) |
| SimplePoolOrder.AcceptedIsSubmitted | NBRaft/simplethreadpool.h:35-53 | the accepted tasks are those that submitters came with and queued, in the order of their queueing events |
| SimplePoolOrder.FirstComeFirstServed | NBRaft/simplethreadpool.cpp:24-34 | in every run the i-th task taken is the i-th queued, and a worker that finds a task takes it, also after the stop |
| SimplePoolOrder.FinishedIffRan | NBRaft/simplethreadpool.cpp:35-37 | a task is finished exactly if a worker that ran it has come to its end |
| SimplePoolOrder.RunningWasStarted | NBRaft/simplethreadpool.cpp:32-36 | a worker runs only a task it held when it lowered the idle count |
| SimplePoolOrder.StoppedIffCalled | NBRaft/simplethreadpool.cpp:20-48 | the pool is stopped exactly after stop was called, refuses a task exactly then, and only then loses a worker |
| SimplePoolOrder.StoppedWorkersLeave | NBRaft/simplethreadpool.cpp:43-52 | after the stop every worker has a next event until it is gone, and each brings it nearer to that |
| SimplePoolOrder.OneTaskRuns | NBRaft/simplethreadpool.cpp:20-38 | in some run a submitted task is taken, run and finished, and the worker tests the stop flag again |
| SimplePool.TaskStartsOnce | NBRaft/simplethreadpool.cpp:29-37 | no two events of a run start the same task |
| SimplePool.IdleCountIsRight | NBRaft/simplethreadpool.h:55-55 | the idle count is the pool size less the workers between decrement and increment, so within 0 and the pool size |
| SimplePool.StopBoundsTheRest | NBRaft/simplethreadpool.cpp:20-52 | after the stop each worker starts at most one more task, and only one it held or was waiting for, and the pool starts and dequeues at most its size, whoever still submits |
| SimpleThreadPools.SimpleThreadPool.Submit | NBRaft/simplethreadpool.h:35-53 | queues the task at the back unless the pool is stopped |
| SimpleThreadPools.SimpleThreadPool.TakeTask | NBRaft/simplethreadpool.cpp:23-34 | takes the front task, or none exactly if the queue is empty |
| SimpleThreadPools.SimpleThreadPool.WorkAlone | NBRaft/simplethreadpool.cpp:20-38 | one worker alone runs all queued tasks in order, none once stopped, and restores the idle count |
| ParallelPool.IndexIsRemainder | NBRaft/parrallenThreadPool.h:30-31 | after k sequential submissions the index is k mod n |
| ParallelPool.QueuesAreLevel | NBRaft/parrallenThreadPool.h:26-37 | after k sequential submissions over n queues each has received exactly its share, the quotient or one more |
| ParallelPool.WorkersKeepOrder | NBRaft/parrallenThreadPool.cpp:40-50 | with interleaved submitters the index stays in range, and what each worker started followed by what its queue holds is what was pushed to it |
| ParallelPoolOrder.PushesGoWhereChosen | NBRaft/parrallenThreadPool.h:30-35 | with interleaved submitters every task goes to the queue one after the index its submitter read, and nowhere else |
| ParallelPoolOrder.EachQueueInOrder | NBRaft/parrallenThreadPool.h:26-37 | in every run the tasks each worker has started followed by those in its queue are the tasks submitters sent there, in order |
| ParallelPoolOrder.WorkersRunWhatTheyStart | NBRaft/parrallenThreadPool.cpp:40-50 | a worker runs the task it popped last and leaves only once m_done was set |
| ParallelPoolOrder.QueuesStopWhenTold | NBRaft/parrallenThreadPool.cpp:28-33 | a queue is stopped exactly once the destructor has told it to |
| ParallelPoolOrder.FilledEvenly | NBRaft/parrallenThreadPool.h:26-37 | in every run whose submissions come one after another, k of them leave each of n queues with its share, k / n or one more, and the index at k mod n |
| ParallelPoolOrder.DoneWorkersLeave | NBRaft/parrallenThreadPool.cpp:28-50 | once m_done is set and its queue stopped, a worker has a next step until it is gone, and each brings it nearer to that |
| ParallelPoolOrder.OneTaskRuns | NBRaft/parrallenThreadPool.cpp:40-50 | in some run a submitted task is pushed, popped and run, and the worker tests m_done again |
| ParallelPool.DoneBoundsTheRest | NBRaft/parrallenThreadPool.cpp:28-50 | after m_done at most one more task starts on each queue, only if its worker was in a pop, and so at most n in all |
| ParrallenThreadPools.ParrallenThreadPool.Submit | NBRaft/parrallenThreadPool.h:26-37 | pushes to the next queue in turn and leaves the others alone |
| ParrallenThreadPools.ParrallenThreadPool.WorkAlone | NBRaft/parrallenThreadPool.cpp:40-50 | one worker alone runs all tasks of its queue in order, none once done, and touches no other queue |
| ParrallenThreadPools.ParrallenThreadPool.Shutdown | NBRaft/parrallenThreadPool.cpp:28-33 | stops every queue and loses no task |
| JsonRpc.AnswerCarriesTheId | NBRaft/jrpcproto.cpp:339-351 | the answer made from a call is a well-formed response with the handler's result, the version and the id of the call |
| JsonRpc.AnswerIsExact | NBRaft/jrpcproto.cpp:339-351 | the answer to any well-formed request has exactly its version, the handler's result and its id, and there is none for another request |
| JsonRpc.ResponseIffOneOutcome | NBRaft/jrpcproto.cpp:377-395 | a packet is taken for a response exactly if it has a version, an id and exactly one of result and error |
| JsonRpc.CallIsFaithful | NBRaft/jrpcproto.cpp:60-103 | the server finds in a request exactly the version, method, parameters and id the caller put there |
| JsonRpc.RefusedIffMalformed | NBRaft/rpcserver.cpp:33-37 | a request is refused exactly if its version, method or parameters are missing or of another type |
| JsonRpc.NotificationIffNoId | NBRaft/rpcserver.cpp:28-46 | a well-formed request is dispatched as a notification exactly if it has no id |
| JsonRpc.VariadicNotifyIsACall | NBRaft/jrpcproto.h:76-82 | the variadic overload makes a call with the empty id, the other one a notification, for all arguments |
| JsonRpc.OnlyInternalErrorKeepsItsName | NBRaft/jrpcproto.cpp:402-416 | a JSON-RPC code keeps its name through createFromInt exactly if it is InternalError |

## Left out

- Raft: the Raft classes and stubs of the repository are empty, so there is no consensus protocol to model.
- Wake-ups: that a parked popper or worker is eventually woken does not follow from the code, because `push` and `stop`
  notify without holding the mutex of the waiting side. Parked threads may wake at any time, and only safety and freedom
  from lock deadlock are stated.
- Memory order of the atomics: stop flag and counter are read and written in the single order of the interleaving.
- `std::lock` in `try_steal` is one step that takes both locks when both are free; its internal retries are not modelled.
- AtomicDeque.FirstInFirstOut: says nothing about the order of pops once steals occur; `RunsAreExplained` still fixes
  every answer.
- Element types whose move constructor throws, allocation failure, and destroying a queue while it is in use.
- StealThreadPool's worker loop and back-off: the server's pool is a bag whose tasks run at most once, in any order.
- Sockets and real time: a read completes with exactly the bytes asked for or an error, a write puts its bytes on the wire
  in any number of pieces, a sleep is any number of other steps.
- Packets.Packet.Send: bodies of 65532 to 65535 bytes, for which the size sum wraps and the copy overruns the buffer;
  `SizeFitsIff` says that these are all.
- `encode` and `decode`: copies between strings and byte buffers.
- Sessions.Session.Send: data whose length modulo 65536 is above 65531, for the same reason, and exceptions from allocating
  a packet, which close the session.
- JSON text, conversions of ids that are not strings, and texts that parse to something other than an object.
- RpcClients.RpcClient.OnDataReady: a callback that throws or calls back into the client while its mutex is held.
- Reading `record->response` in the stub happens without the client's mutex; the model reads it at one instant.
- `clearCallRecords`, outside use of `removeCallRecord`, reconnecting a client, and the once-only stubs, which make a
  client for each call.
- Handlers: an abstract answer, at most one for a call and with its id; parameter checks are not modelled.
- SessionManager, CEventHandler, the io_context pool, the environment manager, timers, logging and configuration.

# Verification of WanNet's logger, lock-free queue and echo test

This project models the parts of WanNet whose correctness depends on the order of statements in concurrent code,
and proves what they promise for every run. `dafny verify dfyconfig.toml` checks it.

**The asynchronous logger** (`AsyncLog*.dfy`). Any number of threads run `LogMonitorAsync`; one thread runs
`asyncLogThread`. They meet in `LockFreeQueue`, which is not taken as a FIFO but modelled as it is written: one
step per read, compare-and-swap or counter update of `Enqueue` and `TryDequeue`, tagged pointers, helping, and
node reuse through a pool that hands out its top node and makes a new one only when it is empty. `AsyncLogModel`
is the step relation, `AsyncLogInvariant` and `AsyncLogLedger` the parts of its invariant, `AsyncLogSteps` the
proof that every safe step keeps it, `AsyncLogOrder` what tame steps keep besides, `AsyncLogTheorems`,
`AsyncLogProgress` and `AsyncLogCalls` what follows for whole runs. `AsyncLogTrace` says of runs with their
actions what was asked for and is in the file, in which order the pool hands nodes out, and what the identifier,
the counter and the event hold; the compare-and-swaps are spelled out in `SwapsExactly`. Three promises of the
queue hold only under a condition, and each condition is made exact:
* A node from the pool may be handed out while another `Enqueue` still holds its address and is about to swap
  its `Next`; the expected value is an untagged null, so the swap succeeds on a node that is not yet linked. The
  other call's record then hangs on that node. No record is lost by this: every run in which no remembered
  tagged pointer is handed out again, with fewer than 2^32 records queued (`Safe`), keeps each record exactly
  once, and when the node is linked the records that hang on it come with it (`HangingJoins`). What is lost is
  order and liveness. The call returns before its record can be reached, its thread's next record overtakes it,
  and `mTail` may stay behind, so that without another call the writer spins for ever in front of a queued
  record. `AsyncLogReuse` proves for each of these that an allocation lets it come about exactly when it hands
  out a node whose `Next` some thread is about to swap, and `AsyncLogScenarios` gives a run for each. Calls
  return all the same, and afterwards everything is written if and only if `mTail` is at the end
  (`SafeScheduleDrains`). The theorems on order, and on draining from any state, are about runs without such an
  allocation (`Tame`). The pool gives a thread no choice: `NextStepTame` says when the next allocation is tame.
* A record is lost for ever in the run of `AsyncLogReissue`: after 65536 enqueues the 16-bit identifier comes
  round, a node is handed out under the very tagged pointer that a thread helping `mTail` along still remembers,
  `mTail` moves back off the end, and a node is linked to itself. `AsyncLogOverflow` shows why fewer than 2^32
  records may be queued: `mCount` comes round to zero.
* `TryDequeue` may answer "empty" while the record of a completed call is queued, because `mCount` lags behind
  the links. `EmptyAnswer` says exactly when the answer is true, and `NoLostWakeup` shows why the logger loses
  nothing by it: the thread that has yet to count has yet to signal.

**The log file** (`LogFile.dfy`, `LogFileTrace.dfy`, `LogText.dfy`, `Timestamp.dfy`, `Interleaving.dfy`). Many
threads in `LogFormat`, `LogMessageWithTime` and `LogFormatWithTime` while others change the level; the texts
they build in bounded buffers; the timestamp. `LogFileTrace` says what the file is to hold by the calls, the
levels set and the times read alone.

**The echo test** (`Echo*.dfy`). N clients, each with one packet going round through the server, with
reconnects. Connections are objects of their own, so old and new ones of a client exist side by side; the tail
of `OnReceive` after `SendPacket` may overlap anything; main's report exchanges counters with zero at any time.
The counter laws hold for every run. `EchoNetwork` says of runs with their actions, from any state, what each
connection carries and what main reports, and that nothing holds up time, the network or main (`AnyTime`). A run
may start in any state with one packet per client. Two conditions on drops matter. As long as no connection
drops between `Connect` and its first send (`Patient`), each client has one packet, no two of its threads touch
`mLastSendTick` or `mLastRTT` at a time, and its RTTs add up to no more than the time elapsed, whatever the
packets carry. `EchoRaces.RacesExactly` says which drops end the freedom from races. If besides no drop leaves
bytes that mislead the client (`Tame`), packets carry the right ticks and no error is counted. What the other
drops do:
* A connection drops between `Connect` and the first send: `NetClient` starts the new receive thread before the
  old one has sent, and both use the same `mSocket` and `mLastSendTick`. Any such drop can be followed by a
  counted echo error if the receive buffer is empty (`EarlyDropCanErr`), and one comes about
  (`EarlyDropHappens`).
* A connection drops in the middle of a packet: `NetClient` keeps the bytes in `mRecvBuffer`, and they go in
  front of the next connection's. `CutExactly` says for each of the eight cuts of a tick's nine bytes what they
  do. One or two bytes read as the header of a packet longer than any, and three to five can always be completed
  to an intact packet with another tick; of six to eight the checksum decides. Bytes that mislead can be
  followed by a counted error (`MidPacketDropCanErr`), and one comes about for every tick and key
  (`MidPacketDropHappens`). After all others the client is deaf: it is handed no packet any more, and the drop
  is tame.

`EchoDrops.ErrsExactly` joins these: after any tame run, exactly the early drops with an empty receive buffer
and the drops that leave misleading bytes can be followed by tame steps that count an error.

A drop while another thread of the client is about to set `mbIsConnected` can leave the client stuck: connected,
with no thread left to receive. `EchoStuck` proves that a stuck client never connects again, that such a drop
can be followed by a step that makes it so, that without one no client ever is, and that it comes about.

**Packets on the wire** (`PacketCodec.dfy`, `PacketNumerals.dfy`, `Framing.dfy`, `RingBuffer.dfy`). Why a packet that arrives whole in
front of an empty receive buffer may stand for its tick in the echo model, and what is read when it does not:
encoding, checksum, and the packet loop on a stream cut anywhere. The receive buffer keeps every byte unless one
receive fills it completely, which its offered size allows in some positions; then all of it is lost.
`PacketNumerals` says in numbers what stands in each byte on the wire.

**The classes as programs** (`LoggerProgram.dfy`, `EchoProgram.dfy`, and the classes in `PacketCodec` and
`RingBuffer`). Fields, buffers filled in place and loops as in the source, each method proved against the
functions the other modules reason about. `AsyncLogRuns` and `EchoSolo` prove that the steps of the state
machines, with nothing in between, do what these methods state.

Environment, taken as given: memory is sequentially consistent; `SetEvent` and the auto-reset wait are atomic;
each `WriteFile` appends its bytes at once; no thread logs before static initialisation has finished; a
connection is first-in first-out and loses nothing until it drops, and delivers nothing sent after;
`timeGetTime` is true milliseconds modulo 2^32. Clock readings, formatted messages, network answers and random
keys are parameters.

## Model

| member | source | states |
|---|---|---|
| AsyncLogSteps.InitInv | WanNet/NetLibrary/Logger/Logger.cpp:10-15 | The start state, with the writer thread already at its wait, satisfies the invariant of the logger and its queue. |
| AsyncLogSteps.StepKeepsInv | WanNet/NetLibrary/DataStructure/LockFreeQueue.h:30-113 | Every safe step of any thread, whatever node the pool hands out, keeps the whole invariant: list shapes, node and buffer ownership, counters, pipeline, each record once. |
| AsyncLogSteps.RunKeepsInv | WanNet/NetLibrary/Logger/Logger.cpp:122-140 | The invariant holds at the end of every safe run of any number of threads. |
| AsyncLogOrder.RunKeepsOrder | WanNet/NetLibrary/DataStructure/LockFreeQueue.h:30-64 | At the end of every tame run the order invariant holds besides: no node hangs outside the queue, and mTail is the last node or the last but one. |
| AsyncLogTheorems.NoLostWakeup | WanNet/NetLibrary/Logger/Logger.cpp:225-243 | In every safe run a non-empty queue implies the event is set, or the writer is not at its wait, or some thread that has linked its record has yet to call SetEvent; and while the writer waits on an unset event there are no more queued records than such threads. |
| AsyncLogTheorems.ExactlyOnce | WanNet/NetLibrary/Logger/Logger.cpp:122-140 | In every safe run the record of every call is either exactly once in the file, in the writer's hand or in the queue, or in exactly one buffer still to be linked; and the file shows nothing else. |
| AsyncLogTheorems.InCallOrder | WanNet/NetLibrary/Logger/Logger.cpp:133-137 | In every tame run what a thread has asked to log is, in call order, what the file shows of it, what is under way, and the record it is enqueueing; the file and what is under way follow one linking order. |
| AsyncLogTheorems.SingleOwner | WanNet/NetLibrary/Logger/Logger.cpp:231-239 | In every safe run each live buffer has exactly one holder among threads, queue nodes, nodes still to be linked and the writer, and every held buffer is live. |
| AsyncLogTheorems.SafeStartUp | WanNet/NetLibrary/Logger/Logger.cpp:188-190 | The writer calls TryDequeue only after static initialisation and a completed Enqueue; wakes plus a set event never exceed signals, nor signals enqueues. |
| AsyncLogTheorems.EmptyAnswer | WanNet/NetLibrary/DataStructure/LockFreeQueue.h:66-98 | In every safe run, when TryDequeue answers empty, exactly as many records are linked and not taken as there are Enqueues between link and count; there are none if and only if there is no such Enqueue. |
| AsyncLogTheorems.EmptyAnswerExact | WanNet/NetLibrary/DataStructure/LockFreeQueue.h:66-98 | In every tame run all of these are in the queue, so the answer is true if and only if there is no such Enqueue. |
| AsyncLogTheorems.MonitorIsInterleaving | WanNet/NetLibrary/Logger/Logger.cpp:28-33 | In every safe run the monitor file is an interleaving of the asynchronous records in linking order with each thread's synchronous records in call order, and nothing is missing or added. |
| AsyncLogTrace.RecordsOfActions | WanNet/NetLibrary/Logger/Logger.cpp:17-34 | In every run, safe or not, each thread's LogMonitor records in the file are those of its LogMonitor calls, all of them in order, and the records of its LogMonitorAsync calls are those of its calls: the message and a newline, cut to 511 characters. |
| AsyncLogTrace.PrintAlone | WanNet/NetLibrary/Logger/Logger.cpp:17-34 | Once the logger is ready, an idle thread can call LogMonitor in any reachable state, by a safe step, and its record is then the last in the file, behind all that was there. |
| AsyncLogTrace.AllAskedIsWritten | WanNet/NetLibrary/Logger/Logger.cpp:122-140 | When a tame run can go no further without a new call, the file holds of each thread exactly what it has asked of either function, in order. |
| AsyncLogTrace.SharedWords | WanNet/NetLibrary/DataStructure/LockFreeQueue.h:30-64 | In every run mID and mCount hold what has been counted, modulo 2^32, and the event is set exactly when it has been set since the writer last woke. |
| AsyncLogTrace.TagIsOrdinal | WanNet/NetLibrary/DataStructure/LockFreeQueue.h:30-42 | The tag of a new node is the number of Enqueue calls so far, modulo 65536. |
| AsyncLogProgress.StepProgress | WanNet/NetLibrary/DataStructure/LockFreeQueue.h:44-63 | Every tame step from a state of a tame run that is no new call strictly decreases an explicit measure, retries of both loops included. |
| AsyncLogProgress.RetryIsStale | WanNet/NetLibrary/DataStructure/LockFreeQueue.h:79-103 | In tame runs TryDequeue starts over only when mTail has moved since it was read, and its null-successor test never fires. |
| AsyncLogProgress.NextStepTame | WanNet/NetLibrary/Memory/LockFreeObjectPool.h:50-72 | With fewer than 2^32 records outstanding a step is tame if and only if it is no allocation, or the pool is empty, or nobody is about to swap the Next of its top node or remembers the tagged pointer. |
| AsyncLogTrace.LastFreedFirst | WanNet/NetLibrary/Memory/LockFreeObjectPool.h:50-72 | The node freed last is the only one that can be handed out next, and handing it out leaves the pool as it was. |
| AsyncLogTrace.PoolIsStack | WanNet/NetLibrary/Memory/LockFreeObjectPool.h:110-115 | In any run a node that TryDequeue frees is the one handed out when the pool is next as deep as that left it. |
| AsyncLogTrace.SecondFreedFirst | WanNet/NetLibrary/Memory/LockFreeObjectPool.h:110-115 | Of two nodes freed with no other use of the pool in between, the second is handed out first and the first after it. |
| AsyncLogProgress.QuiescentIsDrained | WanNet/NetLibrary/Logger/Logger.cpp:225-243 | In every safe run, when nothing can move, the queue is empty, no buffer is alive, and each record asked for is in the file exactly once. |
| AsyncLogProgress.QuiescentInOrder | WanNet/NetLibrary/Logger/Logger.cpp:225-243 | If the calls' order was kept, each thread's records are then in the file in its call order. |
| AsyncLogProgress.EveryScheduleDrains | WanNet/NetLibrary/Logger/Logger.cpp:122-140 | From any state of a tame run, every infinite schedule without new calls whose allocations are tame reaches such a drained state, in call order if that was kept before. |
| AsyncLogReuse.ReachesIsChain | WanNet/NetLibrary/DataStructure/LockFreeQueue.h:79-106 | The nodes the history calls queued are exactly those the Next pointers reach from mHead. |
| AsyncLogReuse.EarlyReturnExactly | WanNet/NetLibrary/DataStructure/LockFreeQueue.h:46-61 | An allocation lets another thread's call return before its record can be reached if and only if it hands out the node whose Next that thread is about to swap. |
| AsyncLogReuse.HangingJoins | WanNet/NetLibrary/DataStructure/LockFreeQueue.h:46-52 | Linking a node in the queue makes every record that hangs on it reachable, with its data, behind it. |
| AsyncLogReuse.OrderBreaksExactly | WanNet/NetLibrary/DataStructure/LockFreeQueue.h:46-61 | An allocation lets a call return with its record neither written nor under way, so that its thread's next record overtakes it, if and only if it is of that kind. |
| AsyncLogReuse.TailStaysBehindExactly | WanNet/NetLibrary/DataStructure/LockFreeQueue.h:46-61 | With mTail at the end and a tagged pointer that nobody remembers, an allocation lets two calls return with mTail behind if and only if it is of that kind. |
| AsyncLogReuse.DrainsExactly | WanNet/NetLibrary/DataStructure/LockFreeQueue.h:66-113 | With no call in progress, a schedule without new calls writes everything if and only if mTail is at the end of the queue; if it is not, the writer never passes it. |
| AsyncLogCalls.CallProgress | WanNet/NetLibrary/DataStructure/LockFreeQueue.h:44-63 | In every state of a safe run, each step of a thread in a call decreases an explicit measure, whatever node the pool hands out; the writer's steps leave it alone. |
| AsyncLogCalls.CallsReturn | WanNet/NetLibrary/DataStructure/LockFreeQueue.h:30-64 | In every safe schedule without new calls in which a thread in a call moves sooner or later, all calls return, though the writer may spin. |
| AsyncLogCalls.SafeScheduleDrains | WanNet/NetLibrary/Logger/Logger.cpp:122-140 | In every such schedule, from any state of a safe run, everything asked for is written exactly once if and only if mTail is at the end when the calls have returned. |
| AsyncLogScenarios.EarlyReturnHappens | WanNet/NetLibrary/Memory/LockFreeObjectPool.h:50-72 | A tame run with two threads to a state whose pool holds just the endangered node: the next allocation must hand it out, and all three failures can follow. |
| AsyncLogScenarios.StallHappens | WanNet/NetLibrary/DataStructure/LockFreeQueue.h:79-103 | A safe run after which no thread is in a call and the writer can never write a queued record without a new call. |
| AsyncLogScenarios.OvertakingHappens | WanNet/NetLibrary/DataStructure/LockFreeQueue.h:46-61 | A safe run in which a thread logs two records and they are linked in the opposite order. |
| AsyncLogReissue.TailMovesOffEndExactly | WanNet/NetLibrary/DataStructure/LockFreeQueue.h:53-60 | With mTail at the end, an allocation whose call then runs alone leaves another thread with a swap that moves mTail off the end if and only if it reissues the tagged pointer that thread remembers. |
| AsyncLogReissue.OrphanStays | WanNet/NetLibrary/DataStructure/LockFreeQueue.h:66-113 | A record whose node is its own successor and no other's is never written and its buffer never deleted, whatever step follows. |
| AsyncLogReissue.LinksInsideExactly | WanNet/NetLibrary/DataStructure/LockFreeQueue.h:44-61 | From any state in which the walk along Next from mTail ends, wherever mTail points and whatever points to the new node, an Enqueue that runs alone leaves its node where mHead reaches it if and only if mHead reaches the last node of the walk or reached the new node before. |
| AsyncLogReissue.RecordLostForever | WanNet/NetLibrary/DataStructure/LockFreeQueue.h:31-61 | After a safe run of 65536 enqueues one tagged pointer is reissued, and from that allocation on steps lead to the return of a call whose record is such an orphan. |
| AsyncLogOverflow.CountWraps | WanNet/NetLibrary/DataStructure/LockFreeQueue.h:61-75 | A safe run piles up 2^32 - 2 records; two calls more, and TryDequeue answers empty with 2^32 records queued and none written, and nothing can move without a new call. |
| AsyncLogScenarios.FalseEmptyAnswer | WanNet/NetLibrary/DataStructure/LockFreeQueue.h:61-71 | A run in which TryDequeue answers empty while the record of a call that has returned is queued. |
| AsyncLogRuns.LogMonitorAsyncAlone | WanNet/NetLibrary/Logger/Logger.cpp:133-139 | In any state of a safe run with mTail at the end, a call with nothing in between appends its record to what is under way and sets the event, wherever the writer and the other threads are. |
| LogText.TwoStageRefinesOne | WanNet/NetLibrary/Logger/Logger.cpp:110-119 | Bounding the message and then the decorated record gives the record bounded once. |
| LogText.NewlineSurvives | WanNet/NetLibrary/Logger/Logger.cpp:19-30 | A monitor record ends with its own newline exactly when the message has at most n - 2 characters; else it is the message's first n - 1. |
| Timestamp.RoundTrip | WanNet/NetLibrary/Logger/Logger.cpp:209-223 | The 15-character text parses back to the time if and only if the year is at most 9999. |
| Timestamp.OrderPreserved | WanNet/NetLibrary/Logger/Logger.cpp:215-222 | For years up to 9999, texts compare as times do. |
| Timestamp.TextChars | WanNet/NetLibrary/Logger/Logger.cpp:215-222 | Each of the fifteen characters: the digit of its field, and an underscore between date and time. |
| LogFile.ReadClockText | WanNet/NetLibrary/Logger/Logger.cpp:103-120 | The record LogFormatWithTime writes through LogMessageWithTime is its message decorated and bounded once. |
| LogFile.LogFileIsInterleaving | WanNet/NetLibrary/Logger/Logger.cpp:36-89 | In every run the log file is an interleaving of one chunk sequence per thread, with nothing missing or added: the chunks of its records in call order, all but those of the record in progress. |
| LogFile.OnlyFormatSplits | WanNet/NetLibrary/Logger/Logger.cpp:86-88 | Two chunks of one record in the file are the message and the newline of a LogFormat record, and only other threads' chunks come between. |
| LogFile.FormatCanSplit | WanNet/NetLibrary/Logger/Logger.cpp:86-88 | Two LogFormat calls of any messages can end up as message, message, newline, newline. |
| LogFile.LevelsBoundTheLog | WanNet/NetLibrary/Logger/Logger.cpp:38-41 | While the level stays between two bounds, every decided call at or above the upper one is logged, in call order, and none below the lower one, though LogFormatWithTime tests the level twice. |
| LogFile.ConstantLevel | WanNet/NetLibrary/Logger/Logger.cpp:103-120 | With a constant level an idle thread has logged exactly its calls that the level lets through, as spelled out at RankDecides, and the file holds exactly their chunks of it, in order. |
| LogFile.RankDecides | WanNet/NetLibrary/Logger/Logger.h:19-27 | The test mLogLevel > logLevel lets through: at Debug all calls, at System all but Debug, at Error Error, Test and Assert, at Test Test and Assert, at Assert only Assert. |
| LogFile.Decimal4Is | WanNet/NetLibrary/Logger/Logger.cpp:64-64 | "%4d" is the shortest digits of the number behind its sign, with as many spaces in front as make four characters. |
| LogFileTrace.FileIsExpected | WanNet/NetLibrary/Logger/Logger.cpp:36-120 | In every run, however the level changes, an idle thread's texts in the file are what its calls were to write, said of the calls, the levels set and the times read alone, in order. |
| LogFileTrace.TestsDecide | WanNet/NetLibrary/Logger/Logger.cpp:73-120 | Of every call that has returned: it read the time if and only if it passed all its level tests, two for LogFormatWithTime and one otherwise, each by the level when it was made; after one that fails there is no other. |
| LogFileTrace.AlwaysAStep | WanNet/NetLibrary/Logger/Logger.cpp:36-120 | In every state of every run each thread has a step: any call if it is in none, else the next step of its call. |
| LoggerProgram.TextInBounded | WanNet/NetLibrary/Logger/Logger.cpp:19-26 | Bounding a formatted text and reading it up to its terminator is bounding what precedes the terminator. |
| LoggerProgram.StringCchPrintf | WanNet/NetLibrary/Logger/Logger.cpp:30-30 | After the call the buffer is terminated and holds the text cut to its length less one. |
| LoggerProgram.Wcslen | WanNet/NetLibrary/Logger/Logger.cpp:201-201 | The length found is that of the text before the first terminator, inside the buffer. |
| LoggerProgram.Logger.WriteToLogFile | WanNet/NetLibrary/Logger/Logger.cpp:199-207 | The file gains the buffer's text, without its terminator. |
| LoggerProgram.Logger.LogMonitor | WanNet/NetLibrary/Logger/Logger.cpp:17-34 | The monitor file gains one record: the message bounded, decorated and bounded again. |
| LoggerProgram.Logger.LogMonitorAsync | WanNet/NetLibrary/Logger/Logger.cpp:122-140 | A fresh buffer holding the same record joins the end of the queue, the event is set, and every live buffer is in the queue exactly once. |
| LoggerProgram.Logger.AsyncLogRound | WanNet/NetLibrary/Logger/Logger.cpp:227-240 | From wake to wait the monitor file gains all waiting records in order; the queue is empty, every buffer deleted, the event unset. |
| LoggerProgram.Logger.GetCurrentTimeInfo | WanNet/NetLibrary/Logger/Logger.cpp:209-223 | The 16-character buffer holds the timestamp text whose round trip and order Timestamp proves. |
| LoggerProgram.Logger.LogCurrentTime | WanNet/NetLibrary/Logger/Logger.cpp:91-101 | The monitor file gains the record that LogMonitor would write for the message "<time>". |
| LoggerProgram.Logger.LogMessageWithTime | WanNet/NetLibrary/Logger/Logger.cpp:36-51 | If the level does not let the call through, nothing is written: at Debug every call passes, at System all but Debug, at Error Error, Test and Assert, at Test Test and Assert, at Assert only Assert. Else the log file gains the call's one chunk as LogFile defines it. |
| LoggerProgram.Logger.LogMessageWithPlace | WanNet/NetLibrary/Logger/Logger.cpp:53-68 | The same for the overload with file name and line. |
| LoggerProgram.Logger.LogFormat | WanNet/NetLibrary/Logger/Logger.cpp:70-89 | Below the level nothing; else two chunks, the bounded message and a newline. |
| LoggerProgram.Logger.LogFormatWithTime | WanNet/NetLibrary/Logger/Logger.cpp:103-120 | Below the level nothing; else one chunk, the message decorated and bounded once, though the program bounds twice. |
| EchoToken.TickDifference | WanNet/EchoDummy/EchoDummy.cpp:19-19 | The 32-bit difference of two ticks never exceeds the true time between them and equals it exactly when that is below 2^32. |
| EchoToken.RunCount | WanNet/EchoDummy/EchoDummy.cpp:6-62 | At the end of every patient run each client has its one packet and at most one thread at work, and its RTTs measure disjoint intervals. |
| EchoTicks.RunToken | WanNet/EchoDummy/EchoDummy.cpp:6-62 | At the end of every tame run each client's packet besides carries the tick last recorded, and what is left in its receive buffer deafens it. |
| EchoTheorems.OnePacket | WanNet/EchoDummy/EchoDummy.cpp:10-34 | In every patient run a connected client that has finished its post-connect send has exactly one packet, on its present connection, or lost with it when it is down, or swallowed by its receive buffer. |
| EchoTheorems.OneToken | WanNet/EchoDummy/EchoDummy.cpp:10-34 | In every tame run that packet carries the tick the client last recorded, and is swallowed only when the client is deaf. |
| EchoTheorems.EchoErrorsNeverCounted | WanNet/EchoDummy/EchoDummy.cpp:13-16 | No tame run changes g_echoErrorCount or brings a thread to its increment, whatever dropped connections have left in the receive buffers of clients that are deaf. |
| EchoTheorems.RingNeverStalls | WanNet/EchoServer/EchoServer.cpp:7-11 | In tame runs the packet of a client that is connected and settled always has a next step on its way round, under any key, as long as its connection is up and its receive buffer is empty. |
| EchoNetwork.UpLinkIsFifo | WanNet/NetLibrary/NetServer/NetClient.cpp:50-70 | From any state a connection is up until one end or the network ends it; while it is, what is under way is what its client has sent on it, each packet once and in order, less what has come back; the server holds what it has received and not sent on. |
| EchoNetwork.DownLinkDriesUp | WanNet/NetLibrary/NetServer/NetClient.cpp:74-90 | A connection that is down stays down: what is under way still comes in, in order, and everything sent is lost. |
| EchoNetwork.CountersTally | WanNet/EchoDummy/main.cpp:60-90 | From any state, whatever the threads do, the clock and all counters are those of what has happened, modulo their widths: the two per-second counters since main last took them, with what it has shown; the others from the start. |
| EchoReconnectRace.EarlyDropCanErr | WanNet/EchoDummy/EchoDummy.cpp:47-57 | In any state with nothing left in the receive buffer, a drop between Connect and the first send can be followed by tame steps that count an echo error. |
| EchoFailures.EarlyDropHappens | WanNet/NetLibrary/NetServer/NetClient.cpp:29-30 | A run with one client in which one step is not tame, such a drop, and an echo error is counted. |
| EchoLeftover.DeafReads | WanNet/NetLibrary/NetServer/NetClient.cpp:92-134 | With bytes in its buffer that claim a packet longer than any, or that fail the check whatever completes them, a client is handed nothing, and has such bytes afterwards. |
| EchoLeftover.WaitsExactly | WanNet/NetLibrary/NetServer/NetClient.cpp:76-92 | Bytes that begin no whole packet are kept as long as there are fewer than 8191. |
| EchoLeftover.CutExactly | WanNet/NetLibrary/NetServer/NetClient.cpp:80-134 | For every tick, key and cut: the bytes left in an empty receive buffer can be read with another packet behind them as a wrong tick if and only if they are three to five, or six to eight and the nine bytes they are completed to pass the check; all others deafen the client. |
| EchoLeftover.LeftExactly | WanNet/NetLibrary/NetServer/NetClient.cpp:80-134 | The same behind bytes already left: what a drop leaves in a deaf client's buffer misleads or deafens, never both. |
| EchoFailures.MidPacketDropCanErr | WanNet/NetLibrary/NetServer/NetClient.cpp:80-90 | In any state a drop in the middle of a packet that leaves misleading bytes can be followed by tame steps that count an echo error. |
| EchoFailures.MidPacketDropHappens | WanNet/NetLibrary/NetServer/NetClient.cpp:80-90 | For every start time, key and cut of three to five bytes, a run with one client in which one step is not tame, such a drop with no thread before its first send, and an echo error is counted. |
| EchoDrops.ErrsExactly | WanNet/NetLibrary/NetServer/NetClient.cpp:80-90 | After any tame run, a step can be followed by tame steps that count an echo error if and only if it is a drop between Connect and the first send that finds the receive buffer empty, or a drop that leaves misleading bytes in it. |
| EchoLeftover.EndsMisleading | WanNet/NetLibrary/NetServer/NetClient.cpp:80-90 | Under any key some packet ends in four bytes that mislead; so they do if the five before them fill the receive buffer and are lost with all it holds. |
| EchoStuck.StuckForever | WanNet/NetLibrary/NetServer/NetClient.cpp:18-21 | A client that is connected with no thread receiving stays so whatever happens, and is given no connection any more. |
| EchoStuck.NeverStuck | WanNet/NetLibrary/NetServer/NetClient.cpp:14-39 | In a run without a drop while another of its threads is about to set mbIsConnected, no client comes to that. |
| EchoStuck.StuckExactly | WanNet/NetLibrary/NetServer/NetClient.cpp:29-30 | From such a run on, a step can be followed by a thread's step that leaves the client stuck if and only if it is such a drop. |
| EchoStuck.StuckHappens | WanNet/NetLibrary/NetServer/NetClient.cpp:82-89 | A run with one client in which one step is not tame, such a drop, and the client is stuck. |
| EchoTheorems.RaceFree | WanNet/EchoDummy/EchoDummy.cpp:13-36 | In every patient run at most one thread of a client is about to touch mLastSendTick or mLastRTT, and the packet is then in its hand. |
| EchoRaces.RacesExactly | WanNet/NetLibrary/NetServer/NetClient.cpp:29-30 | After any patient run, a step can be followed by patient steps to two threads of one client about to touch these fields if and only if it is a drop while another thread of the client has connected and is before its first send, unless that thread is at the send and its packet would not be read behind the bytes left. |
| EchoRaces.CollisionRaces | WanNet/EchoDummy/EchoDummy.cpp:53-57 | In any state at all such a drop can be followed by tame steps to such a race. |
| EchoRaces.RaceHappens | WanNet/NetLibrary/NetServer/NetClient.cpp:29-30 | A run with one client in which one step is not tame, such a drop, and two threads are about to store. |
| EchoTheorems.RttsOfClient | WanNet/EchoDummy/EchoDummy.cpp:19-20 | In every patient run the RTTs a client adds sum to at most the true time since its first send. |
| EchoTheorems.RttSumBound | WanNet/EchoDummy/EchoDummy.cpp:20-20 | In every patient run all RTTs added sum to at most N times the elapsed time; while the start value plus that bound is below 2^64, g_rttSum is the start value plus that sum. |
| EchoCounters.ReceivedMinusSent | WanNet/EchoDummy/EchoDummy.cpp:26-36 | In every run received less sent, with what main has printed and reset, is modulo 2^32 the number of handlers between the two increments. |
| EchoCounters.ClassifiedMinusReceived | WanNet/EchoDummy/EchoDummy.cpp:13-26 | In every run RTTs plus errors less received is modulo 2^32 the number of handlers that have classified a packet and not counted it. |
| EchoCounters.ConnectionsBalance | WanNet/EchoDummy/EchoDummy.cpp:43-61 | In every run connected plus down less total connects keeps its value modulo 2^32, up to the threads between the two increments of a pair, for any number of failed attempts. |
| EchoCounters.PacketBalance | WanNet/EchoDummy/EchoDummy.cpp:24-38 | In every run references taken less freed are those held at the present program counters of clients and server, zero exactly when no handler holds one. |
| EchoNetwork.ConnectOutcome | WanNet/NetLibrary/NetServer/NetClient.cpp:14-30 | In any state Connect, up to where it sets mbIsConnected, fails and changes nothing while the client is connected; else it replaces the socket, and if the network answers there is one more connection, with nothing on it and its thread in recv. |
| EchoProgram.EchoDummy.Connect | WanNet/NetLibrary/NetServer/NetClient.cpp:14-39 | When connected, fails and changes nothing; else replaces the socket, and if the network answers starts its receive thread and connects with nothing yet sent. |
| EchoProgram.EchoDummy.SendPacket | WanNet/NetLibrary/NetServer/NetClient.cpp:50-70 | Sends the packet's wire form, encoded once however often it is sent, exactly when connected and not null; an error of the network is recorded, and the answer is still true. |
| EchoProgram.EchoDummy.OnReceive | WanNet/EchoDummy/EchoDummy.cpp:6-39 | The counters, mLastRTT and mLastSendTick after a packet with any tick, the one packet sent, carrying the new tick, and one reference given up of the packet received and of the packet sent. |
| EchoProgram.EchoDummy.Reconnect | WanNet/EchoDummy/EchoDummy.cpp:47-51 | Counts exactly the failed attempts before the first success, each with a socket of its own; ends connected on the last one, or is still trying when there is no success. |
| EchoProgram.EchoDummy.OnDisconnect | WanNet/EchoDummy/EchoDummy.cpp:41-62 | For any answers of the network: the counters after the failed attempts, and, once an attempt succeeds, g_totalConnectedClientCount as before and the new connection sent one packet with the recorded tick. |
| EchoProgram.EchoServer.SendPacket | WanNet/NetLibrary/NetServer/NetServer.cpp:119-152 | The session in the slot that the upper 32 bits of the ID name is queued the packet's wire form, with a reference of its own, if and only if it is that session, not released and not being disconnected; its I/O count is as before. |
| EchoProgram.EchoServer.OnReceive | WanNet/EchoServer/EchoServer.cpp:7-11 | For an ID from k * 2^32 up to (k + 1) * 2^32 the payload goes to session k if that is the one meant and takes packets, and to no other session; the handler gives up its reference, so that only the queue's is left. |
| EchoSolo.OnReceiveAlone | WanNet/EchoDummy/EchoDummy.cpp:13-36 | The steps of OnReceive with nothing in between have the effect EchoProgram states. |
| EchoSolo.OnDisconnectAlone | WanNet/EchoDummy/EchoDummy.cpp:43-61 | The same for OnDisconnect, for any number of failed attempts. |
| PacketCodec.DecodeEncode | WanNet/NetLibrary/NetServer/Serializer.h:405-442 | Decoding undoes encoding for all data and keys. |
| PacketCodec.EncodeDecode | WanNet/NetLibrary/NetServer/Serializer.h:405-442 | Encoding undoes decoding: for each key encoding is one-to-one and onto. |
| PacketCodec.DecodeIsLocal | WanNet/NetLibrary/NetServer/Serializer.h:436-442 | A decoded byte depends only on its encoded byte and the two before. |
| PacketNumerals.XorBits | WanNet/NetLibrary/NetServer/Serializer.h:418-419 | Each bit of the exclusive or is set exactly when the two bits differ. |
| PacketNumerals.DecodeByte | WanNet/NetLibrary/NetServer/Serializer.h:436-442 | With n(i) the code's byte i, xor the byte before it plus 0x32 plus i + 1, byte i decodes to n(i) xor n(i - 1) plus the key plus i + 1, sums modulo 256 and nothing before the first byte. |
| PacketNumerals.EncodeByte | WanNet/NetLibrary/NetServer/Serializer.h:416-422 | The code of any data under any key means every byte of the data in this sense; its first byte is the data's xor key + 1 xor 0x33. |
| PacketNumerals.WireBytes | WanNet/NetLibrary/NetServer/Serializer.h:361-387 | The wire form in bytes: 0x77, the length low byte first, the key, and a code that means the sum of the payload modulo 256 and then the payload. |
| PacketNumerals.UnwireBytes | WanNet/NetLibrary/NetServer/Serializer.h:425-453 | decode() accepts a packet if and only if the first byte meant is the sum of the others modulo 256, and hands on the others. |
| PacketNumerals.CheckSumIsTotal | WanNet/NetLibrary/NetServer/Serializer.h:392-402 | The checksum is the sum of the payload modulo 256. |
| PacketNumerals.FourBytes | WanNet/NetLibrary/NetServer/Serializer.h:161-169 | A 32-bit value is written as its four bytes, lowest first. |
| PacketNumerals.FourValue | WanNet/NetLibrary/NetServer/Serializer.h:283-291 | Four bytes are read as the value whose lowest byte is the first. |
| PacketNumerals.FirstBytes | WanNet/NetLibrary/NetServer/NetServer.cpp:449-483 | What the packet loop makes of its bytes, in numbers: fewer than five wait; another code than 0x77 or a length over the limit ends the connection; fewer than five and the length wait; over 1000 overruns; else the packet is decoded. |
| PacketCodec.UnwireWire | WanNet/NetLibrary/NetServer/Serializer.h:361-387 | Every payload of fewer than 65535 bytes, the most the 16-bit loop bound allows, comes back from the wire under any key and passes the checksum. |
| PacketCodec.Value4Bytes4 | WanNet/NetLibrary/NetServer/Serializer.h:161-169 | A 32-bit value read back from its little-endian bytes is itself. |
| PacketCodec.TickSurvivesRound | WanNet/EchoServer/EchoServer.cpp:7-11 | A tick sent under one key, decoded by the server and sent back under another, reaches the client unchanged. |
| PacketCodec.Serializer.Put32 | WanNet/NetLibrary/NetServer/Serializer.h:161-169 | The payload gains the value's bytes at its end. |
| PacketCodec.Serializer.Get32 | WanNet/NetLibrary/NetServer/Serializer.h:283-291 | Reads the value of the next four payload bytes and moves past them. |
| PacketCodec.Serializer.GetCheckSum | WanNet/NetLibrary/NetServer/Serializer.h:392-402 | The loop computes the checksum of the payload. |
| PacketCodec.Serializer.SetHeaderValue | WanNet/NetLibrary/NetServer/Serializer.h:361-377 | Code, little-endian length, key and checksum are in front of an unchanged payload. |
| PacketCodec.Serializer.EncodeInPlace | WanNet/NetLibrary/NetServer/Serializer.h:405-422 | The in-place loop encodes checksum and payload and leaves the rest of the header. |
| PacketCodec.Serializer.DecodeInPlace | WanNet/NetLibrary/NetServer/Serializer.h:425-453 | The in-place loop decodes them, and returns true exactly for intact packets, whose payload is then in the buffer. |
| PacketCodec.Serializer.PrepareSend | WanNet/NetLibrary/NetServer/Serializer.h:380-387 | The full buffer is the wire form of the payload. |
| Framing.ParseSplit | WanNet/NetLibrary/NetServer/NetServer.cpp:442-501 | Parsing some bytes and then, with what was kept, the rest, is parsing them all; a connection ended early stays ended with the same packets. |
| Framing.ChunksDoNotMatter | WanNet/NetLibrary/NetServer/NetServer.cpp:434-504 | For any bytes and any cutting into receives, the packets delivered, whether the connection is kept and what is left over are those of the whole stream. |
| Framing.KeptIsShort | WanNet/NetLibrary/NetServer/NetServer.cpp:468-483 | What is kept for the next receive is shorter than one packet of the largest allowed size; so the full-buffer branch is never taken if the receive buffer is larger than that. |
| Framing.ParseWire | WanNet/NetLibrary/NetServer/NetServer.cpp:442-501 | A stream of sent packets parses to exactly their payloads, with nothing left. |
| Framing.SentIsReceived | WanNet/NetLibrary/NetServer/NetClient.cpp:92-134 | Under any keys and any cutting, exactly the payloads sent are handed on, in order. |
| Framing.NextPacket | WanNet/NetLibrary/NetServer/NetServer.cpp:449-501 | For any limit, one round takes exactly the first packet out of the receive buffer, or waits, or ends the connection, also when the buffer is full, or copies past the end of a packet buffer, as First says. |
| Framing.PacketLoop | WanNet/NetLibrary/NetServer/NetServer.cpp:442-501 | For any limit, the loop on the receive buffer delivers what parsing its contents delivers and keeps what that keeps, unless that fills the buffer, when the connection ends. |
| Framing.OnReceived | WanNet/NetLibrary/NetServer/NetServer.cpp:432-504 | A receive delivers what the new bytes behind the kept ones parse to; if they fill the buffer exactly, everything is lost. |
| Framing.ReceiveStream | WanNet/NetLibrary/NetServer/NetServer.cpp:432-504 | Any receives of any stream, none of which fills the buffer, hand on what the bytes taken parse to as a whole; if the connection ends early, what the whole stream parses to. |
| RingBuffer.RingBuffer.GetUseSize | WanNet/NetLibrary/NetServer/RingBuffer.h:17-17 | The number of bytes held, always below the capacity. |
| RingBuffer.RingBuffer.GetDirectEnqueueSize | WanNet/NetLibrary/NetServer/RingBuffer.h:23-31 | Stays inside the buffer and off the live bytes, but offers the slot that must stay free if and only if the free space does not go round the end. |
| RingBuffer.RingBuffer.GetDirectDequeueSize | WanNet/NetLibrary/NetServer/RingBuffer.h:34-42 | The live bytes in one piece at the front are the first of the contents; all of them unless they go round the end. |
| RingBuffer.RingBuffer.Enqueue | WanNet/NetLibrary/NetServer/RingBuffer.h:44-67 | Appends the data exactly when it fits with one slot free, else changes nothing. |
| RingBuffer.RingBuffer.Dequeue | WanNet/NetLibrary/NetServer/RingBuffer.h:69-90 | Takes exactly the first bytes, or changes nothing if there are too few. |
| RingBuffer.RingBuffer.Peek | WanNet/NetLibrary/NetServer/RingBuffer.h:92-111 | Reads the first bytes, or fails if there are too few. |
| RingBuffer.RingBuffer.Receive | WanNet/NetLibrary/NetServer/NetClient.cpp:80-92 | A receive of any offered size appends its bytes unless they fill the buffer to the last byte, and then the buffer becomes empty. |

## Left out

- EchoModel.Read: a receive buffer that fills up, which takes some 900 connections of a deaf client. The bytes are then lost (RingBuffer.Receive) and the client may hear again out of step; EndsMisleading shows that a wrong tick can be read then, but the runs of the echo model end before.
- EchoModel: a packet comes in with all its bytes at once, but for the one a drop cuts. Cuts between receives are the subject of Framing.
- AsyncLogProgress.EveryScheduleDrains: covers only schedules whose allocations are tame, and the pool does not see to that; for all other safe schedules see SafeScheduleDrains, which asks for fairness and says when they drain.
- AsyncLogReuse.TailStaysBehindExactly: stated for allocations made while mTail is at the end.
- AsyncLogReissue.RecordLostForever: one run; that the reissue of a remembered tagged pointer always loses a record is not claimed. Where a later Enqueue links is (LinksInsideExactly).
- AsyncLogModel.Safe: both clauses are sufficient conditions. That they are needed is shown by one run each (RecordLostForever, CountWraps), and which allocations start the first by TailMovesOffEndExactly and LinksInsideExactly.
- Timestamp.OrderPreserved: stated for four-digit years, which RoundTrip shows to be exactly those whose text is complete.
- Framing.First: of a payload longer than the packet buffer's 1000 bytes, which NetServer's limit may allow and NetClient never checks, it says only that the buffer is overrun; nothing is said of what follows.
- NetClient's packet loop stops the process where the server's drops the session.
- Linearizability of the node pool: an allocation pops the top of a stack in one step. The pool's own loops, the 48-bit address width and its counters are not modelled.
- Weak memory: steps are sequentially consistent.
- Console output, file creation, the byte-order mark, flushing, and writeToFile's message, which is printed on success instead of failure.
- The destructor and process exit: claims are about runs before it; the loop of asyncLogThread has no end, so AsyncLogRound is one turn of it.
- printf conversion of the caller's arguments, locale and time zone; the formatted text and the local time are parameters.
- Assert and raiseCrash of Logger.
- main's start-up loop, whose plain increments race with reconnecting threads, and its unsynchronised reads of mLastSendTick for the report.
- The packet pool: a packet from Alloc is a new object with one reference, and a packet at zero references is not used again.
- A receive thread that fails to start: Connect goes on as if it had.
- NetServer's completion ports, and PostSend: a session's queued packets are those enqueued since Init, posted or not. Sessions are used by one thread at a time in EchoProgram.
- LockFreeStack, LockFreeObjectPool, TlsObjectPool, LockFreeQueue.Clear, the profiler and the database connector.

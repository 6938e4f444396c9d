# Container Builder: verified model

A builder queue keeps virtual machines ready for clients that build containers. This project models
its two hard parts and proves what they promise.

**The queue.** One process runs one event loop on one thread. It keeps three first-in-first-out
lists (clients waiting, builders in reserve, builders in use) and a counter of create commands in
flight, under two limits: ten in reserve, twenty-five in all. Creating and destroying builders,
reading from and writing to clients, posted handlers and retry timers all complete later, in any
order and with any outcome. The model is a state machine in which the environment picks the next
operation to complete and how it ends; a connection lives as long as some continuation refers to it,
and its end returns the builder it holds. The classes `BuilderQueue`, `OpenStack`, `Connection` and
`EventLoop` update their fields as the program does, and every method is tied to a function on
values; `EventLoop.Loop` ties the whole program to the runs the theorems are about.

**The session.** A client and a builder exchange a fixed sequence of messages over one WebSocket
connection: client data, a build context, the build output, the exit code, the container. Files
travel as one message in chunks of at most 4096 bytes, followed by their CRC-32 in decimal as a
message of its own. Messages may be cut and joined on the way. The model has the two loops over
fixed buffers, both main programs in their order of steps, and the session as two programs that take
turns in any order; the checksum is computed bit by bit, so what it detects is proved.

## Files

| file | contents |
|---|---|
| `Options`, `Bags`, `MachineInts`, `Builders` | optional values, totals over lists, size_t and int, the builder record and list removal |
| `PoolModel`, `SystemModel` | the queue's operations as functions on values; connections, events, runs |
| `Invariant`, `ConnectionEvents`, `QueueEvents`, `Preservation` | one invariant and its proof over every event |
| `Theorems`, `Termination`, `Service` | what holds in every reachable state; that runs end and where; who is served when |
| `Steps`, `History` | what each completion does, spelled out; that the recorded histories are what happened in the run |
| `BuilderQueue`, `Server` | the classes |
| `Crc32`, `Bursts`, `Decimal` | the checksum, what it detects, numbers as decimal text |
| `WebSocket`, `FileTransfer` | messages in fragments, the two transfer loops and their round trip |
| `SessionModel`, `SessionInvariant`, `SessionSafety`, `SessionTheorems` | the session under every schedule |
| `Programs` | the two main programs and a build from end to end |

## What is assumed of the environment

- OpenStack never gives two servers the same id. Equality of builders is by id only.
- Commands launch. A launched command's output ends once, with end-of-file or with an error, and then
  its handler is posted once.
- A builder counts as destroyed when the destroy handler reports no error; the command's exit code is
  only logged.
- std::list::remove, the Boost CRC register and Beast's stream are modelled by what they are
  documented to do. The widths are those of a 64-bit size_t and a 32-bit int.
- Session and transfer theorems are about connections that lose nothing: what arrives has the bytes
  and message ends of what was sent. A connection that breaks is an outcome of the reading methods.

## Findings

- The second subtraction of the create loop wraps once the total passes its limit, and creates are
  then issued all the same; `RequestCountExact` gives the exact condition, and `WithinCapacity` shows
  that no reachable state meets it.
- A client whose connection breaks in the middle of the build output never leaves its reading loop:
  the error is ignored and the message is never done. `SpinsWhenCutOff` gives the exact condition.
- The comment on the queue class fears that a client that leaves while waiting is not cleaned up. It
  keeps its place and is handed a builder, but `GrantedBuilderInOnePlace` and `RestingState` show that
  this builder is returned and destroyed like any other.
- A change of up to four consecutive bytes in a transfer is always refused, and five are too many:
  `CorruptionAccepted` shows it for every file and every offset.

## Model

| member | source | states |
|---|---|---|
| `Theorems.FifoMatching` | BuilderQueue/src/BuilderQueue.cpp:56-73 | for every interleaving, the i-th client to ask has the i-th builder created, for as many as there are of both; waiting clients and reserve are exactly the rest, in order |
| `Theorems.OwnershipConserved` | BuilderQueue/src/BuilderQueue.cpp:36-73 | the active list, counted with multiplicity, is the disjoint union of builders in posted hand-outs, builders held by live connections, and builders being destroyed or about to be retried |
| `Theorems.GrantedBuilderInOnePlace` | BuilderQueue/include/Connection.h:22-27 | a builder granted to a client is at every moment in exactly one place: on its way to that connection, held by it while it lives, or returned exactly once by its end |
| `Theorems.SingleUse` | BuilderQueue/src/BuilderQueue.cpp:60-68 | reserve, active and destroyed builders have pairwise different ids and are together exactly the builders ever created: none serves two clients |
| `Theorems.WithinCapacity` | BuilderQueue/src/BuilderQueue.cpp:85-100 | in every reachable state neither limit is exceeded, the counter is not negative, and the mixed machine arithmetic asks for exactly what the limits leave |
| `Theorems.RefillNeverForgotten` | BuilderQueue/src/BuilderQueue.cpp:84-116 | between events the reserve with the creates in flight is full, or the total is at its limit, or a retry timer is armed, whatever failed before |
| `Theorems.NobodyWaitsInVain` | BuilderQueue/src/BuilderQueue.cpp:52-78 | though each call serves at most one client, waiting clients and reserve builders never exist together |
| `Theorems.NoStrandedClient` | BuilderQueue/src/BuilderQueue.cpp:52-119 | while a client waits, a create is in flight, a retry timer is armed, or all 25 builders are in use and each has a party that will see to its destruction |
| `Theorems.CreatesAccounted` | BuilderQueue/src/BuilderQueue.cpp:98-116 | the counter is the number of create commands whose handler has not run; every launched create has succeeded, failed or is in flight; at most ten are created ahead of clients served |
| `Theorems.ConnectionLifecycle` | BuilderQueue/src/Connection.cpp:30-79 | a live connection has exactly one continuation and a dead one none; it holds a builder exactly while that is being written to the client or the close is awaited; it asks at most once |
| `Theorems.DestroyRemovesOne` | BuilderQueue/src/BuilderQueue.cpp:41 | when a destroy handler runs, removal by equality deletes exactly the one entry of that builder and keeps the order of the rest |
| `Theorems.StatusSnapshot` | BuilderQueue/src/BuilderQueue.cpp:6-34 | a status report is the builders handed out and not destroyed, in hand-out order, and the builders created and not handed out; no id twice, at most 25 entries |
| `Theorems.RequestAnswered` | BuilderQueue/src/Connection.cpp:114-137 | what each request string leads to, in terms of the whole history: last place in the queue, the report, the image-list command, or the end of a connection that held nothing, and nothing else changes |
| `Theorems.NextReturnedByDead` | BuilderQueue/include/Connection.h:22-27 | every event keeps it so that whatever was returned had been held by a connection that has ended |
| `Theorems.SentWhatWasGranted` | BuilderQueue/src/Connection.cpp:46-59 | the record being written to a client is the one granted to that client and held by its connection |
| `History.HistoryHappened` | BuilderQueue/src/BuilderQueue.cpp:38-41 | the histories the other results speak of are what the completions of the run say, in order: requests that asked, builders given to create handlers, builders reported by destroy handlers, and the number of failed creates |
| `History.CreatedWasPrinted` | BuilderQueue/src/BuilderQueue.cpp:103-109 | over every run, the builders ever created together with those in posted handlers are exactly, record by record, those that create commands printed; so every builder in reserve or in use is one of them, unchanged |
| `History.DestroyedByCommand` | BuilderQueue/src/BuilderQueue.cpp:38-47 | over every run, the builders counted as destroyed together with those in posted successful handlers are exactly those whose destroy command ran to the end of its output |
| `History.GrantsAreWritten` | BuilderQueue/src/Connection.cpp:46-67 | over every run, the grants are exactly those posted to their client, being written to it, and written to it: each client is sent its own builder, once |
| `History.LaunchesAreRun` | BuilderQueue/src/BuilderQueue.cpp:98-102 | the create commands launched are exactly those whose output has ended and those still running |
| `History.EveryClientCanBeServed` | BuilderQueue/src/Connection.cpp:139-149 | from every reachable state, a client at its handshake has a continuation without failures or arrivals in which it asks, is granted a builder and has that builder written to it |
| `History.NewcomersCanBeServed` | BuilderQueue/include/Server.h:32-40 | from every reachable state, a client that arrives next can be served in the same way |
| `History.TalliesCount` | BuilderQueue/src/BuilderQueue.cpp:103-116 | the tallies that bound the length of runs count connections made, creates that ended without a builder, destroys that broke off and builders created |
| `Termination.RunsAreFinite` | BuilderQueue/src/BuilderQueue.cpp:36-119 | a run is no longer than 20 events plus 12 for each arrival, 4 for each failed create and 3 for each failed destroy, so with finitely many of these every run of the whole server is finite |
| `Termination.NextMeasure` | BuilderQueue/src/BuilderQueue.cpp:36-119 | an explicit measure over connection stages, waiting clients, reserve slots, creates, destroys and timers falls with every event that is no arrival and no failure, and rises by a bounded amount with those |
| `Termination.RestMeansIdle` | BuilderQueue/src/main.cpp:14-16 | only arrivals are possible exactly when no operation is outstanding: no operation ever gets stuck |
| `Termination.RestingState` | BuilderQueue/include/BuilderQueue.h:21-26 | where nothing but a new client can make anything happen, nobody waits, no builder is in use, no create is in flight, the reserve holds exactly ten, every connection has ended, all who asked were served, and all builders handed out are destroyed |
| `Termination.WindsDown` | BuilderQueue/src/main.cpp:14-16 | from every state that satisfies the invariant a run without arrivals and failures leads to rest |
| `Service.ServedByCreation` | BuilderQueue/src/BuilderQueue.cpp:56-73 | the client at position k of the waiting list has a builder exactly when more than k creates have succeeded since, in every continuation of the run |
| `Service.EveryoneCanBeServed` | BuilderQueue/src/BuilderQueue.cpp:52-78 | from every reachable state the server can come to rest with no new client and no failure, everyone who had asked having been served |
| `Service.RunGrows` | BuilderQueue/src/BuilderQueue.cpp:98-109 | clients and builders are recorded at the ends only, and builders recorded in a run are its successful creates |
| `Preservation.InitInv` | BuilderQueue/include/BuilderQueue.h:21-26 | the freshly constructed queue satisfies the invariant |
| `Preservation.NextInv` | BuilderQueue/src/main.cpp:14-16 | every event, with every outcome, keeps the invariant |
| `Preservation.ClientEventInv` | BuilderQueue/src/Connection.cpp:30-154 | a completion on a connection keeps the invariant, and the connection object is destroyed exactly when it has nothing left to do; what each completion does is in Steps.ConnectionStep |
| `Steps.ConnectionStep` | BuilderQueue/src/Connection.cpp:30-154 | in every reachable state, for every step and outcome: which operation follows, what the connection then holds, that nothing else changes, and how the connection ends, with or without a builder to destroy |
| `Steps.CheckoutStep` | BuilderQueue/include/BuilderQueue.h:39-43 | a request for a builder: served at once from the front of the reserve, which is then refilled by exactly the deficit and nobody was waiting; or last in the queue, and nothing else changes |
| `Steps.ArriveStep` | BuilderQueue/include/Server.h:32-40 | a new client gets a live connection without builder that starts its handshake |
| `Steps.AnythingMayHappen` | BuilderQueue/include/OpenStack.h:45-94 | exactly which outcomes each operation may have: no success, failure, request string or printed builder with a fresh id is ruled out |
| `Preservation.ReachableInv` | BuilderQueue/src/main.cpp:14-16 | the invariant holds after every run |
| `Invariant.CreateReserveFills` | BuilderQueue/src/BuilderQueue.cpp:84-100 | within capacity the create loop issues exactly the deficit of the two limits and leaves one of the two bounds met exactly |
| `Invariant.ServeCore` | BuilderQueue/src/BuilderQueue.cpp:56-73 | handing the front builder to the front client keeps lists, log and ownership in step |
| `Invariant.ProcessPendingInv` | BuilderQueue/src/BuilderQueue.cpp:52-78 | where at most one client or one builder could be matched, one call restores that none can and that the reserve is refilled |
| `Invariant.NotYetDestroyed` | BuilderQueue/src/BuilderQueue.cpp:60-68 | a builder that was not handed out is not among the destroyed |
| `ConnectionEvents.HandoutArrives` | BuilderQueue/src/Connection.cpp:46-67 | the hand-out handler moves a builder from the posted handler to its connection and keeps the invariant |
| `ConnectionEvents.ConnEnds` | BuilderQueue/include/Connection.h:22-27 | a finished connection is destroyed, returns the builder it holds, and the invariant is kept |
| `QueueEvents.CreateSucceedsInv` | BuilderQueue/src/BuilderQueue.cpp:103-109 | a successful create keeps the invariant; what it does is in Steps.CreatedStep |
| `QueueEvents.CreateFailsInv` | BuilderQueue/src/BuilderQueue.cpp:110-115 | a failed create keeps the invariant; what it does is in Steps.CommandStep |
| `QueueEvents.CreateTimerInv` | BuilderQueue/include/BuilderQueue.h:59-61 | a retry timer may fire at any time, however late and however many are armed |
| `QueueEvents.DestroyedInv` | BuilderQueue/src/BuilderQueue.cpp:39-42 | a reported destroy removes the builder, refills and keeps the invariant |
| `Steps.CreatedStep` | BuilderQueue/src/BuilderQueue.cpp:103-109 | the builder given to a create handler goes, as that record, to the client that waits longest, or to the end of the reserve when none waits; the counter falls, and a hand-out is followed by exactly the creates the limits ask for |
| `Steps.CommandStep` | BuilderQueue/src/BuilderQueue.cpp:38-49 | a create or destroy command posts its handler with the record it printed or the success it had; a failed create lowers the counter and arms one retry timer, a failed destroy arms its timer, a destroy timer runs the command again; lists, history and all other operations stay |
| `Steps.CreateTimerStep` | BuilderQueue/include/BuilderQueue.h:59-61 | a create timer leads to exactly the creates the limits ask for then |
| `Steps.DestroyedStep` | BuilderQueue/src/BuilderQueue.cpp:39-42 | a reported destroy removes the one entry of that builder and is followed by exactly the creates the limits ask for |
| `PoolModel.RequestCountExact` | BuilderQueue/src/BuilderQueue.cpp:85-94 | the size_t arithmetic computes the intended count exactly when nothing wraps: the condition is given for all inputs |
| `Builders.RemovedIsOneEntry` | Common/src/BuilderData.cpp:7-9 | with pairwise different ids, removal by equality removes exactly one entry |
| `Builders.RemovedCounts` | Common/src/BuilderData.cpp:7-9 | removal deletes all entries with the id, whatever host and port, and no other |
| `Builders.WithoutOneMore` | BuilderQueue/src/BuilderQueue.cpp:41 | removing one more builder by equality is filtering out one more id |
| `BuilderQueues.BuilderQueue.constructor` | BuilderQueue/include/BuilderQueue.h:21-26 | a new queue is empty but for the creates it has issued |
| `BuilderQueues.BuilderQueue.CreateReserveBuilders` | BuilderQueue/src/BuilderQueue.cpp:80-119 | the loop in place issues the specified number of creates, one command each, and changes nothing else |
| `BuilderQueues.BuilderQueue.ProcessPendingHandler` | BuilderQueue/src/BuilderQueue.cpp:52-78 | moves the front builder to the active list, posts it to the front handler and refills, or does nothing |
| `BuilderQueues.BuilderQueue.CheckoutBuilder` | BuilderQueue/include/BuilderQueue.h:39-43 | the handler joins the end of the list and at most one is served |
| `BuilderQueues.BuilderQueue.ReturnBuilder` | BuilderQueue/src/BuilderQueue.cpp:36-38 | launches the destroy command and leaves the lists alone |
| `BuilderQueues.BuilderQueue.CreateHandler` | BuilderQueue/src/BuilderQueue.cpp:103-116 | in place, what the model does on that event: stock and serve on success, only the retry timer on failure, as Steps.CreatedStep and Steps.CommandStep spell out |
| `BuilderQueues.BuilderQueue.DestroyHandler` | BuilderQueue/src/BuilderQueue.cpp:38-49 | in place, what the model does on that event: remove and refill, or only the retry timer, as Steps.DestroyedStep and Steps.CommandStep spell out |
| `BuilderQueues.BuilderQueue.StatusReport` | BuilderQueue/src/BuilderQueue.cpp:6-34 | copies both lists in order |
| `BuilderQueues.OpenStack.RequestCreate` | BuilderQueue/include/OpenStack.h:28-36 | one create command is in flight |
| `BuilderQueues.OpenStack.CreateOutputRead` | BuilderQueue/include/OpenStack.h:45-94 | the handler is posted once, with a builder exactly when the output ended and parsed |
| `BuilderQueues.OpenStack.Destroy` | BuilderQueue/include/OpenStack.h:112-119 | one destroy command is in flight |
| `BuilderQueues.OpenStack.DestroyOutputRead` | BuilderQueue/include/OpenStack.h:127-136 | the handler is posted once, without error exactly when the output ended |
| `BuilderQueues.IoContext.Complete` | BuilderQueue/src/main.cpp:14-16 | a completed operation is taken out, the others stay |
| `Server.Connection.Start` | BuilderQueue/src/Connection.cpp:139-145 | starts the handshake |
| `Server.Connection.HandshakeDone` | BuilderQueue/src/Connection.cpp:145-153 | reads the request when the handshake succeeded, and otherwise does nothing more |
| `Server.Connection.RequestRead` | BuilderQueue/src/Connection.cpp:119-136 | consumes the buffer and dispatches on the request; an unknown request or an error starts nothing |
| `Server.Connection.RequestBuilder` | BuilderQueue/src/Connection.cpp:69-79 | joins the queue of waiting clients |
| `Server.Connection.RequestQueueStats` | BuilderQueue/src/Connection.cpp:81-95 | writes the status as it is now |
| `Server.Connection.RequestImageList` | BuilderQueue/src/Connection.cpp:97-112 | starts the image-list command |
| `Server.Connection.BuilderReady` | BuilderQueue/src/Connection.cpp:46-59 | keeps the builder and starts writing that builder to the client |
| `Server.Connection.BuilderWritten` | BuilderQueue/src/Connection.cpp:59-66 | waits for the close when the write succeeded, and otherwise does nothing more |
| `Server.Connection.WaitForClose` | BuilderQueue/src/Connection.cpp:30-44 | starts the read that ends the connection |
| `Server.Connection.Destroy` | BuilderQueue/include/Connection.h:22-27 | the destructor returns the builder exactly when there is one |
| `Server.EventLoop.constructor` | BuilderQueue/src/main.cpp:8-11 | the program starts in the initial state of the model |
| `Server.EventLoop.Accept` | BuilderQueue/include/Server.h:32-40 | a new client gets a connection object that is started |
| `Server.EventLoop.UseCount` | BuilderQueue/src/Connection.cpp:30-35 | counts the continuations and waiting handlers that refer to a connection |
| `Server.EventLoop.DropReference` | BuilderQueue/include/Connection.h:22-27 | with its last reference a connection is destroyed |
| `Server.EventLoop.CompleteOne` | BuilderQueue/src/main.cpp:14-16 | completing one operation in place is one event of the model, whose effect Steps spells out for every operation |
| `Server.EventLoop.Loop` | BuilderQueue/src/main.cpp:14-16 | the event loop in place, over any sequence of events, is a run of the model |
| `Crc32.Crc.ProcessBytes` | Builder/src/main.cpp:61-62 | the running register over a buffer is the register after all its bytes |
| `Crc32.Crc.Value` | Builder/src/main.cpp:69 | the final value is the inverted register |
| `Crc32.CheckValue` | Builder/src/main.cpp:54 | the checksum of the digits 1 to 9 is CBF43926: start, polynomial, bit order and inversion are those of CRC-32 |
| `Crc32.AnyChunking` | Builder/src/main.cpp:170-177 | checksumming chunk by chunk is checksumming the whole, wherever the chunks are cut |
| `Crc32.BitStepLinear` | Builder/src/main.cpp:54 | the register step is linear |
| `Crc32.BitStepsInjective` | Builder/src/main.cpp:54 | the register step is a bijection: steps are undone in one way only |
| `Crc32.ProcessInjective` | Builder/src/main.cpp:62 | different registers stay different over the same bytes |
| `Bursts.ProcessIsWord` | Builder/src/main.cpp:62 | up to four bytes enter the register as one word |
| `Bursts.ShortInjective` | Builder/src/main.cpp:62 | from one register, different runs of up to four bytes lead to different registers |
| `Bursts.BurstDetected` | Builder/src/main.cpp:54-75 | files of equal length that differ only within four consecutive bytes, at any offset, have different checksums |
| `Bursts.FiveByteBurstMissed` | Builder/src/main.cpp:54-75 | four is the limit: in every file, at every offset, some change of five consecutive bytes keeps the checksum |
| `Decimal.TextInjective` | Builder/src/main.cpp:69-73 | different numbers have different decimal texts |
| `Decimal.TextReads` | Builder/src/main.cpp:69 | the text of a number is its decimal numeral: digits only, no leading zero unless it is zero, and worth the number when every digit counts with the power of ten of its place |
| `Decimal.NumeralIsText` | Builder/src/main.cpp:69 | conversely every decimal numeral is the text of the number it is worth |
| `Decimal.SignedTextReads` | Builder/src/main.cpp:140 | an exit code is a minus sign exactly when it is negative, followed by the decimal numeral of its size |
| `Decimal.ChecksumTextReads` | Builder/src/main.cpp:69 | the checksum message is the decimal numeral of the 32-bit value |
| `Decimal.CheckText` | Builder/src/main.cpp:69 | the checksum message of the digits 1 to 9 is "3421780262" |
| `Decimal.ZeroTextMeansZero` | Client/src/main.cpp:234-236 | the text of an exit code is "0" exactly when the code is 0, whatever its sign |
| `Decimal.ChecksumTextDecides` | Builder/src/main.cpp:69-75 | comparing the decimal texts decides equality of the 32-bit checksums |
| `WebSocket.FirstMessageUnique` | Builder/src/main.cpp:58-63 | a stream of bytes and message ends reads as messages in one way only |
| `WebSocket.TakesWholeMessage` | Builder/src/main.cpp:56-63 | however it is fragmented, a message is taken off as a whole and what follows is left |
| `WebSocket.MessageTaken` | Builder/src/main.cpp:58-63 | of whatever arrives: what is taken is the first message, and nothing can be taken exactly when no message ends |
| `WebSocket.Stream.ReadSome` | Builder/src/main.cpp:58 | a read takes as much of the current message as the buffer holds and tells whether the message is done |
| `WebSocket.Stream.Read` | Builder/src/main.cpp:70-72 | reads one whole message, or fails when the connection ends first |
| `FileTransfer.WriteFile` | Builder/src/main.cpp:150-185 | the loop over a fixed buffer writes the file as fragments of one message and then its checksum, a decimal numeral by Decimal.ChecksumTextReads, as another |
| `FileTransfer.ReadFile` | Client/src/main.cpp:55-87 | the loop over a fixed buffer writes what arrives to disk and accepts exactly when the checksum message matches |
| `FileTransfer.OneMessage` | Client/src/main.cpp:101-116 | for every file, also an empty one and multiples of 4096: one message whose fragments are the file in order, none above 4096 bytes, only the last final, and their exact number |
| `FileTransfer.ReceiveTwo` | Builder/src/main.cpp:56-75 | of any two messages in any pieces, the reader accepts exactly when the second is the checksum text of the first |
| `FileTransfer.ReceiveMeans` | Client/src/main.cpp:65-85 | of whatever arrives: the transfer is lost exactly when fewer than two messages end, and otherwise judged by the first two messages |
| `FileTransfer.RoundTrip` | Builder/src/main.cpp:54-75 | for every file and every refragmentation, the reader rebuilds the file, accepts it and leaves what follows unread |
| `FileTransfer.CorruptionRefused` | Client/src/main.cpp:78-85 | a transfer changed only within four consecutive bytes is refused, in whatever pieces it arrives |
| `FileTransfer.CorruptionAccepted` | Client/src/main.cpp:78-85 | any file of five bytes or more can arrive changed in five consecutive bytes and be accepted |
| `SessionTheorems.ClientOutcome` | Client/src/main.cpp:381-395 | under every schedule the client ends with a byte-identical container exactly when the build succeeds, and otherwise in failure with nothing written; it has shown the whole build output |
| `SessionTheorems.BuilderOutcome` | Builder/src/main.cpp:219-232 | under every schedule the builder got exactly the client data and the context, and delivers exactly when the build succeeds |
| `SessionTheorems.NonZeroStopsBoth` | Builder/src/main.cpp:138-145 | after a non-zero exit code neither side ever comes to the container transfer |
| `SessionTheorems.ChecksumsAgree` | Builder/src/main.cpp:68-75 | checksums compared on the way never disagree when nothing is lost |
| `SessionTheorems.WrongTextsEndIt` | Builder/src/main.cpp:73-75 | in any state at all, a wrong checksum or exit code text ends the side that reads it and nothing is sent; a client that has lost its builder shows and writes nothing more |
| `SessionTheorems.BuilderReadsItsMessages` | Builder/src/main.cpp:219-223 | at every moment what the builder has of data and context is the beginning of each, and all of it once it reads on |
| `SessionTheorems.ClientReadsItsMessages` | Client/src/main.cpp:218-237 | at every moment the client has shown a beginning of the build output and written a beginning of the container, and nothing else |
| `SessionTheorems.NeverStuck` | Client/src/main.cpp:381-395 | until both sides have ended one of them can move |
| `SessionTheorems.EverySessionEnds` | Builder/src/main.cpp:219-232 | no schedule is longer than a bound given by what the two sides have to say |
| `SessionTheorems.ScheduleProgress` | Builder/src/main.cpp:219-232 | every move brings the session closer to its end by an explicit measure |
| `SessionTheorems.SendsTransfers` | Client/src/main.cpp:120-123 | the stages that send a file put the bytes of the transfer loop on the wire |
| `SessionSafety.SessionAligned` | Client/src/main.cpp:381-395 | in every session, what is in a channel is what one side wrote and the other has not read |
| `SessionSafety.ClientAligned` | Client/src/main.cpp:218-237 | every move of the client keeps both channels aligned |
| `SessionSafety.BuilderAligned` | Builder/src/main.cpp:107-148 | every move of the builder keeps both channels aligned |
| `SessionSafety.ContextArrived` | Builder/src/main.cpp:68-75 | when the builder compares checksums it has the whole context and the channel is empty |
| `SessionSafety.ContainerArrived` | Client/src/main.cpp:78-85 | when the client compares checksums it has the whole container, the build succeeded and the builder is done |
| `SessionSafety.OnlyWithoutContainer` | Client/src/main.cpp:222-226 | a client that reads from a builder that has ended, with nothing on the way, is waiting for a container the build did not leave |
| `SessionSafety.ClientStillThere` | Builder/src/main.cpp:56-63 | the client is never gone while the builder still reads |
| `Programs.StreamBuild` | Client/src/main.cpp:218-237 | shows what arrives of the build output and tells success, failure, a lost builder, or a loop that never ends |
| `Programs.SpinsWhenCutOff` | Client/src/main.cpp:223-226 | the client loops for ever exactly when the connection breaks after some of the build output and before its end |
| `Programs.ClientDecides` | Client/src/main.cpp:381-395 | whatever arrives: the number of messages that end, the exit code text and the checksum text decide exactly how the client ends and what it has written |
| `Programs.RunClient` | Client/src/main.cpp:381-395 | the steps of the client in order: what it sends, whatever arrives, and what it ends with and has written for anything that may arrive |
| `Programs.StreamOutput` | Builder/src/main.cpp:121-143 | one fragment for each read of the pipe, the one at end-of-file final, and the exit code, a decimal numeral by Decimal.SignedTextReads, as its own message |
| `Programs.RunBuilder` | Builder/src/main.cpp:219-232 | the steps of the builder in order: what it sends and how it ends for anything that may arrive, as Programs.BuilderDecides spells out |
| `Programs.BuilderDecides` | Builder/src/main.cpp:219-232 | whatever arrives: the builder misses something exactly when fewer than three messages end, refuses exactly when the third is not the checksum text of the second, and otherwise ends as the build alone decides; it speaks only in the last case |
| `Programs.BuilderSpeaksOnlyIf` | Builder/src/main.cpp:219-229 | the builder sends nothing unless client data, a context and the checksum text of that very context are the first three messages to arrive |
| `Programs.ClientSaysItsScript` | Client/src/main.cpp:381-386 | the client program puts exactly the script of the session on the wire |
| `Programs.BuilderSaysItsScript` | Builder/src/main.cpp:107-185 | the builder program puts exactly the script of the session on the wire |
| `Programs.BuilderHears` | Builder/src/main.cpp:219-223 | however the messages of the client are cut, the builder takes the client data and the context for what they are |
| `Programs.ClientHears` | Client/src/main.cpp:218-237 | however the messages of the builder are cut, the client shows the output, judges the exit code rightly and leaves exactly the container transfer |
| `Programs.OneBuild` | Client/src/main.cpp:381-395 | the client program run against the builder program, under any refragmentation both ways: byte-identical container exactly when the build succeeds, the precise ending of both otherwise, and never a loop that does not end |
| `Programs.CorruptContextRefused` | Builder/src/main.cpp:68-75 | a context changed on the way within four consecutive bytes never reaches the build, and the builder says nothing |
| `Programs.CorruptContainerRefused` | Client/src/main.cpp:78-85 | a container changed on the way within four consecutive bytes is never accepted by the client program |

## Left out

- Launch failure of a command: the code posts the handler and still starts the read, which can post it a second time; exactly-once completion is assumed.
- A virtual machine whose create output cannot be read or parsed: the queue never learns of it, and neither does the model.
- Connection faults during a session, except as outcomes of the reading methods in `Programs` and `FileTransfer`; writes always succeed there.
- Sockets, keepalive, TLS, the WebSocket handshake beyond its success or failure, name resolution, process spawning, pipes, tar and file-system calls: only their outcomes appear.
- Pipe errors other than end-of-file while the builder streams output: every other read is passed on, as the code does.
- Exceptions that escape handlers, allocation failure, exhausted descriptors, and the loop in the queue's main that restarts the event loop after an exception.
- Lifetimes of C++ buffers: some writes refer to temporaries or locals; the intended value is modelled as sent.
- Boost archives and JSON text: builder records, client data and status are typed values or plain bytes; a status report is the two lists, not their text.
- Command-line and environment parsing, recipe detection, build command flags and enum conversions: library-driven or finite, easy members only.
- Logging, the waiting animation, the status and image-list programs, deployment and shell scripts. The image-list request is a connection branch that ends without a builder.
- Time: a retry timer may fire at any moment after it was set; that it waits five seconds is not expressed.
- The interleaved session is a model on values; its loops in place over fixed buffers are `FileTransfer` and `Programs`, and `SendsTransfers`, `ClientSaysItsScript` and `BuilderSaysItsScript` say that both put the same bytes on the wire.

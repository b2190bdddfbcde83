# Kingpin in Dafny

Kingpin is a C++ library for event-driven clients and servers: a growable I/O buffer, an
asynchronous logger, thread pools of I/O handlers, and example programs on top of them (a
relayed chess game, a file transfer).  This project models its stateful core and proves what
that core is for: records that reach the log whole, bytes that are neither lost nor reordered,
locks that are handed over without deadlock, work that is handed out exactly once, and two
chess boards that agree.

## How it is built

| files | what they model |
|---|---|
| `LogRecords`, `LoggerMachine`, `LoggerInvariant`, `LoggerTheorems`, `LoggerTiming`, `LoggerWitnesses`, `LoggerRefinement`, `LoggerCalls`, `LoggerPass`, `LoggerExpiry`, `LoggerRounds`, `LoggerExit` | `AsyncLogger` with the locks of `Mutex.h` |
| `Kernel`, `KernelLaws`, `BufferModel` (Buffer.dfy), `Streams`, `Framing`, `FileCopy` | `Buffer`, the two loops built on it |
| `HandlerBuffers`, `ListenLock`, `ListenServing` | the I/O handlers of `IOHandler.h` on the server's side |
| `WorkPool`, `ClientThreads`, `PoolCollisions` | the shared pool of targets and the client's threads |
| `ChessGame`, `ChessServer`, `ChessRelay`, `RelayTheorems`, `RelayMistakes`, `RelayRefinement` | the chess game end to end |

Objects that the C++ updates in place are classes over the same fields (`Buffer` over a
character array with `_start`, `_offset` and the array's length as `_cap`; `Game` over a
two-dimensional array; `Server`, `IOHandler`, `ClientData` over maps).  Each of their methods
states its whole effect, and ghost history fields say what the object has done so far (for the
methods that read by steps, the bytes copied and the largest request are bounded on both sides
instead of counted).

Four parts interleave: the loggers with the backend, the server's threads, the client's
threads, and the two ends of a game.  They are step relations on values (`Ready` says when an
actor can take its next step, `Do` what the step does), with one program counter per thread,
one step per lock operation and per access to shared data, and any number of threads.  A
theorem about a run holds for every interleaving.

The kernel is adversarial.  A descriptor is a script of answers: any number of bytes at a
time, EAGAIN, end of file, connection reset, another error.  Every statement is for all
scripts.  A script that is used up stands for a call that never returns anything else
(`Blocked`), so a loop that sleeps and retries ends in the model exactly when it would have
to wait for ever.  C exceptions are outcomes (`Outcome`).  Bytes are characters.

## What turned out to need a condition

* The logger drops the map lock between creating an entry and taking the lock again
  (lib/AsyncLogger.cc:90-92).  If the backend erases the entry in that window, the logger goes on
  with a null pointer: `UntimelyClockStrands` is such a run.  `EntriesStayExactly` shows that a
  logger past its lookup finds its entry throughout a run if and only if no entry is erased
  inside its owner's window, and `OnlyEraseCanBreak` that no other step of anybody does harm; the
  harm is for good (`StrandedForGood`).
  The theorems about runs assume exactly that; `TimelyIsUndisturbed` derives it from the clock:
  it suffices that no entry inside its owner's window is out of date when the backend tests it.
* The logger needs a map lock under which waiting writers do not hold up readers, as the default of
  glibc does: `WriterPreferenceDeadlocks` is a run that ends with every thread stuck otherwise.
* `readNioToBufferTillEnd` also compares at index `_offset` (lib/Buffer.cc:94).  With a full buffer
  that reads the byte behind the allocation (`Overread`).  For the chess client this happens
  exactly for lines longer than the capacity (`NextLineExactly`), and in a game never
  (`LinesFit`).  `endsWith` has the same edge, which the server never meets (`ReadableRefines`).
* Two hosts with the same `_hash` are one key of the work pool, whatever their names, and
  the second is handed out under the name of the first.  The quick-start guide speaks of
  targets identified by address, port and message; the code is followed.  `HandedOutExactly` says
  over whole runs when the two agree: if and only if no target is added while its key waits for
  another host.  `EveryHashClashes` shows that no choice of hash functions avoids it.
* A batch size of 0 makes a client thread fail its assertion; no other batch does
  (`AssertionHoldsExactly`).
* A move from (1, 1) to (1, 1) or from (2, 2) to (2, 2) has the text of a control message.  Over
  runs with any readable moves, `AskedExactlyForDistinct` and `StopsExactlyForMistaken` say
  that these two, and no others, end the game: after the first both players read for ever, after
  the second the other player leaves.  `FirstMoveMistaken` is a run for each.
* A move with a number of more than one digit is not read back (`RoundTrip`).

## Model

| member | source | states |
|---|---|---|
| LogRecords.LoggedGrows | lib/AsyncLogger.cc:85-118 | A call adds its text; the header comes first and once in a record that has text; END adds one newline. |
| LoggerCalls.CallIsLogged | lib/AsyncLogger.cc:85-121 | In every run a call that returns has added exactly itself to what its thread logged, whatever the others do meanwhile. |
| LoggerCalls.CallCanFinish | lib/AsyncLogger.cc:85-121 | A call can always be finished when nobody else is in the way, and nothing else has changed then. |
| LoggerCalls.StepIsShorter | lib/AsyncLogger.cc:85-121 | Every line a thread executes brings its call nearer to the end, with any number of unlocks. |
| LoggerTheorems.DoKeepsInv | lib/AsyncLogger.cc:85-157 | Every step of every actor keeps the invariant on locks, counters, buffers and the backend's list, unless it erases an entry inside its owner's unlocked window. |
| LoggerTheorems.OnlyEraseCanBreak | lib/AsyncLogger.cc:143-146 | A step breaks the invariant if and only if it erases an entry inside its owner's unlocked window, and then the owner is left without its entry. |
| LoggerTheorems.EntriesStayExactly | lib/AsyncLogger.cc:89-94 | In any run, every logger past its lookup has its entry at every moment if and only if no entry is erased inside its owner's window. |
| LoggerTheorems.StrandedForGood | lib/AsyncLogger.cc:89-94 | A logger whose entry was erased inside its window never gets past the line that uses it, where the program dies on a null pointer. |
| LoggerTiming.TimelyIsUndisturbed | lib/AsyncLogger.cc:135-146 | If no entry inside its owner's window is out of date when the backend tests it, none is erased there. |
| LoggerWitnesses.UntimelyClockStrands | lib/AsyncLogger.cc:89-94 | A run in which a logger past its lookup has no entry, so the condition is needed. |
| LoggerTheorems.RecordsArriveWhole | lib/AsyncLogger.cc:85-139 | In every interleaving the output is whole records of the threads one after the other and nothing else, each thread's in order, and logged equals flushed plus buffered. |
| LoggerTheorems.DepthMatchesCounter | lib/AsyncLogger.cc:94-117 | Between calls the recursive lock is held by its thread alone, as often as the counter says and as texts were logged since END. |
| LoggerTheorems.ExpiryIsSafe | lib/AsyncLogger.cc:128-147 | Whatever entry goes in a run has a free lock, no open record and nothing unflushed, and its thread is not using it. |
| LoggerExpiry.TimeIsLastRenewal | lib/AsyncLogger.cc:80-83 | In any run an entry's time is the clock at the last moment its thread created it or an END stamped it. |
| LoggerExpiry.EndRenews | lib/AsyncLogger.cc:103-117 | Every END renews the entry between its first line and its return. |
| LoggerExpiry.ListedExactly | lib/AsyncLogger.cc:132-138 | An entry is put on the list if and only if its buffer is empty and more than `_expired` has passed since its last renewal. |
| LoggerExpiry.RecentEndIsKept | lib/AsyncLogger.cc:116-138 | With a clock that never goes back, a thread that began and ended an END within the last `_expired` is not listed. |
| LoggerExpiry.ErasedIsOld | lib/AsyncLogger.cc:132-147 | Whatever entry goes was found empty by an earlier test, when more than `_expired` had passed since its last renewal. |
| LoggerExpiry.ListedIsErased | lib/AsyncLogger.cc:141-147 | When the backend is through with a round, what it listed in it is gone, unless its buffer holds something again. |
| LoggerPass.PassFlushesAll | lib/AsyncLogger.cc:127-140 | Every record that was closed when a pass begins is out when it ends, whatever the threads log meanwhile. |
| LoggerTheorems.EntryIsThere | lib/AsyncLogger.cc:94-97 | A thread past its lookup always finds its entry. |
| LoggerTheorems.ExitIsDrained | lib/AsyncLogger.cc:148-152 | When the backend leaves its loop no record is open, every buffer is empty and the output holds all that was logged, once, and nothing else. |
| LoggerExit.StopIsRequested | lib/AsyncLogger.cc:160-168 | In every run the stop flag is set if and only if the destructor has got past setting it. |
| LoggerExit.ExitsExactly | lib/AsyncLogger.cc:148-152 | The backend leaves its loop if and only if it sees, under the write lock, empty buffers and the stop flag. |
| LoggerExit.ExitIsReachable | lib/AsyncLogger.cc:123-158 | From any state with the flag set, no call under way and no record open, the backend's own steps lead out of its loop, each step nearer, and all that was logged is out. |
| LoggerExit.SomeRunExits | lib/AsyncLogger.cc:85-168 | A run from the start that logs a record, calls the destructor and exits with that record written. |
| LoggerRounds.WritingComesRound | lib/AsyncLogger.cc:131-156 | A round in which something is written is followed by another, without sleep or exit. |
| LoggerRounds.IdleRoundLooks | lib/AsyncLogger.cc:124-152 | No round ends without a last look at the buffers unless it has written something. |
| LoggerRounds.LookDecides | lib/AsyncLogger.cc:148-156 | That look decides: another round if and only if a buffer holds something; otherwise exit if and only if the flag is set, and sleep if not. |
| LoggerTheorems.NoDeadlock | lib/AsyncLogger.cc:85-168 | Whoever waits for a lock can take its step, or the actor it waits for can, or the one that one waits for, although the locks are taken in opposite orders. |
| LoggerWitnesses.WriterPreferenceDeadlocks | include/kingpin/Mutex.h:58-75 | A run that ends stuck if waiting writers block readers, so reader preference is needed. |
| LoggerRefinement.LineRefines | lib/AsyncLogger.cc:27-118 | Header, text and newline leave in a buffer exactly what the machine's steps leave in the entry. |
| LoggerRefinement.FlushRefines | lib/AsyncLogger.cc:131-134 | Writing a buffer out is the machine's acceptance of a prefix, whatever the kernel does, and, when the call returns, of all of it followed by the step that empties the entry. |
| LoggerRefinement.AcceptsAdd | lib/Buffer.cc:142-149 | It makes no difference to the machine how a buffer is cut into writes. |
| LoggerInvariant.EmptyMeansSent | lib/AsyncLogger.cc:57-62 | An empty buffer under the write lock means no open record and everything flushed. |
| Kernel.ReadUpToConserves | lib/Buffer.cc:49-67 | Whatever the kernel answers, the bytes read followed by the bytes still to come are the bytes there were. |
| Kernel.EndingAhead | lib/Buffer.cc:49-67 | A read takes what is in front of the end of the stream and reports that end, neither sooner nor later. |
| KernelLaws.ShortRead | lib/Buffer.cc:49-67 | A read takes all pieces in front of the first answer that brings none and ends there; EAGAIN ends it with their length and leaves what follows. |
| KernelLaws.FullRead | lib/Buffer.cc:49-67 | A read for which enough arrives takes exactly what it asked for and leaves the rest of the piece it cut. |
| KernelLaws.ReadAllAtAgain | lib/Buffer.cc:70-78 | Reading until it blocks passes an EAGAIN exactly when the bytes in front of it fill no whole number of steps. |
| KernelLaws.ReadAllEnds | lib/Buffer.cc:70-78 | Two EAGAINs in a row always end it, with every byte in front of them. |
| Kernel.WriteUpToBounds | lib/Buffer.cc:108-126 | A write moves at most what was asked and reports only errors that the kernel answered. |
| KernelLaws.ShortWrite | lib/Buffer.cc:108-126 | A write ends at the first answer that takes nothing, for its reason, with what was accepted before. |
| KernelLaws.FullWrite | lib/Buffer.cc:108-126 | A write for which there is room sends exactly what it was asked to. |
| KernelLaws.StepsMeetFull | lib/Buffer.cc:129-139 | An EAGAIN ends writing until it blocks exactly when it is the first answer of a step. |
| BufferModel.GrownIsDoubled | lib/Buffer.cc:29-31 | The capacity stays the first one times a power of two. |
| BufferModel.Buffer.constructor | lib/Buffer.cc:20-24 | An empty buffer of the given capacity, all zero. |
| BufferModel.Buffer.Resize | lib/Buffer.cc:29-37 | Pending bytes stay, all copying so far is at most the growth so far, and a grown capacity is less than twice the largest request. |
| BufferModel.Buffer.Clear | lib/Buffer.cc:39-43 | Pending bytes are counted as gone, the array is zero. |
| BufferModel.Buffer.ReadNio | lib/Buffer.cc:49-67 | Appends exactly what the kernel delivered, stops for the reason it stopped, loses nothing pending. |
| BufferModel.Buffer.ReadNioTillBlock | lib/Buffer.cc:70-78 | Takes everything up to the first answer that ends it, and leaves room for another step. |
| BufferModel.Buffer.ReadNioTillBlockOrEOF | lib/Buffer.cc:80-85 | The same with end of file as a normal end, and the number of bytes gained. |
| BufferModel.Buffer.Scan | lib/Buffer.cc:94-101 | Finds the smallest occurrence that ends among the bytes just read, none that a naive search would not. |
| BufferModel.Buffer.ReadNioTillEnd | lib/Buffer.cc:88-103 | Refines the naive search: the first occurrence that ends at or after the old end of the buffer, across chunks and across the old boundary. |
| BufferModel.ZeroingHidesNothing | lib/Buffer.cc:32-37 | Zeroing consumed bytes makes no delimiter appear, so growing in the middle of a search is harmless. |
| BufferModel.Buffer.WriteNio | lib/Buffer.cc:108-126 | What left the front is what the descriptor accepted. |
| BufferModel.Buffer.WriteNioTillBlock | lib/Buffer.cc:129-139 | Sends exactly what the kernel's answers make it send, step by step, and leaves the answers after them; ends whatever the kernel does, early only when a step meets EAGAIN at once or at an error. |
| BufferModel.Buffer.WriteNioTillEnd | lib/Buffer.cc:142-152 | Writes all pending bytes and clears, or reports the error with the rest still pending; the answers used are exactly the ones needed. |
| BufferModel.Buffer.Append | lib/Buffer.cc:154-163 | Appends the text up to its first zero byte. |
| BufferModel.UpToZeroByte | lib/Buffer.cc:154-163 | The text of a C string is everything in front of its first zero byte, or all of it. |
| BufferModel.Buffer.StripEnd | lib/Buffer.cc:165-170 | Removes exactly the run of the character at the end and keeps the tail zero. |
| BufferModel.StrippedIsMaximal | lib/Buffer.cc:165-170 | What is removed is the maximal run. |
| BufferModel.Buffer.EndsWith | lib/Buffer.cc:174-176 | The exact suffix test on a buffer that is not full; false on an empty one; undefined outside the allocation. |
| Streams.Step | lib/Buffer.cc:29-163 | What each operation takes in and lets go: exactly what the kernel's answers give for reads and for all writes; only clear() on pending bytes loses any. |
| Streams.Life | lib/Buffer.cc:29-176 | For every sequence of operations and every kernel, operation by operation: what comes in is the texts appended and the bytes taken from the descriptor, what leaves is what clear() removed and otherwise exactly what the other descriptor accepted, and what left plus what is pending is what was pending plus what came in, in order. |
| Framing.LinesAreUnique | examples/chinese_chess_game/StartClient.cc:29-32 | A text is newline-terminated lines plus a rest in one way only, so `Lines` is the framing. |
| Framing.NextLineExactly | examples/chinese_chess_game/StartClient.cc:29-36 | A read gets the next line if and only if its newline is among the next `_cap` bytes in front of the end of the stream, whatever the stream and its chunks; else it overreads or ends for the stream's reason. |
| Framing.AllLines | examples/chinese_chess_game/StartClient.cc:29-36 | The loop yields exactly the lines in front of the end of the stream, unless one does not fit; no byte is taken early and cleared. |
| FileCopy.Receive | examples/file_transfer/StartClient.cc:36-46 | At end of file the file has gained exactly the bytes in front of it; any other end is the error reported and leaves a prefix; its buffer never exceeds 16384 bytes. |
| HandlerBuffers.IOHandler.CreateBuffer | include/kingpin/IOHandler.h:93-106 | The new connection gets two buffers nobody else has; a recycled pair swaps roles. |
| HandlerBuffers.IOHandler.DestroyBuffer | include/kingpin/IOHandler.h:108-114 | Both buffers go to the pool and stay apart from all others. |
| HandlerBuffers.OnePlaceEach | include/kingpin/IOHandler.h:24-34 | Because every buffer is in one place only, no two of the buffers in use or pooled are the same. |
| HandlerBuffers.Run | include/kingpin/IOHandler.h:93-114 | Over every run of openings and closings: no aliasing, and buffers allocated are twice the peak of live connections. |
| HandlerBuffers.PeakIsLargest | include/kingpin/IOHandler.h:93-114 | The peak that Run speaks of is never exceeded by the number of live connections and is reached. |
| ListenLock.DoKeepsInv | include/kingpin/IOHandler.h:326-377 | Every step of every thread keeps the lock, the epoll sets and the counters consistent. |
| ListenLock.OwnsExactlyWhenListening | include/kingpin/IOHandler.h:330-346 | A thread owns the lock if and only if its epoll set holds the listening socket. |
| ListenLock.OneAcceptor | include/kingpin/IOHandler.h:338-372 | At most one thread listens or accepts. |
| ListenLock.NothingIsRefused | include/kingpin/IOHandler.h:319-346 | The assertion never fails, the socket is never registered twice or removed in vain, the lock is released by its owner. |
| ListenLock.NobodyWaitsInVain | include/kingpin/IOHandler.h:334-341 | Whoever waits for the lock waits for another thread that can take a step. |
| ListenLock.ReleaseComesNearer | include/kingpin/IOHandler.h:350-373 | Once the listening socket is reported, each step of its thread is one nearer to the release. |
| ListenServing.ListensWhenFree | include/kingpin/IOHandler.h:335-350 | A thread at the head of its loop comes to its poll, listening if and only if the lock was free or its own; it waits only without descriptors. |
| ListenServing.PollLeadsToRelease | include/kingpin/IOHandler.h:351-377 | A poll that reports the listening socket starts the way to the release, of bounded length. |
| ListenServing.ReportedAreServed | include/kingpin/IOHandler.h:351-378 | Between a poll and the end of its round every reported descriptor is processed or accepted on exactly once, in order. |
| ListenServing.AcceptsBatch | include/kingpin/IOHandler.h:358-375 | The loop around accept4 accepts the batch exactly, or fewer when nothing is left. |
| ListenServing.AcceptedIsPolled | include/kingpin/IOHandler.h:367-374 | A connection that was kept stays in its thread's epoll set until it is closed. |
| WorkPool.AddCounts | include/kingpin/TPSharedData.h:61-64 | Adding changes the count of one target by one: the one it is stored as. |
| WorkPool.KeysOfOneName | include/kingpin/TPSharedData.h:48-50 | Hosts of one name share a key if and only if their ports' hashes agree modulo the width. |
| WorkPool.KeysOfOnePort | include/kingpin/TPSharedData.h:48-50 | Hosts of one port share a key if and only if a hundred times their names' hashes agree modulo the width. |
| WorkPool.LastInFirstOut | include/kingpin/TPSharedData.h:61-83 | A target added to the first host is the next handed out, and taking it undoes the addition. |
| WorkPool.AddsItselfExactly | include/kingpin/TPSharedData.h:47-64 | It is the added target itself if and only if the key is new or made for the same host. |
| WorkPool.TakeCounts | include/kingpin/TPSharedData.h:74-83 | Taking removes exactly the target handed out and leaves no empty list. |
| WorkPool.TakeSmallest | include/kingpin/TPSharedData.h:76-82 | The target handed out has the smallest key. |
| WorkPool.ClientData.RawAdd | include/kingpin/TPSharedData.h:61-64 | Keeps added equal to handed out plus waiting. |
| WorkPool.ClientData.RawGet | include/kingpin/TPSharedData.h:74-83 | Hands out the last text of the first host; keeps the same balance. |
| WorkPool.ClientData.GetFromPool | include/kingpin/IOHandler.h:234-246 | Takes exactly the smaller of batch and total, all for a negative batch, in the order of the keys, and counts them. |
| ClientThreads.HandedOutExactlyOnce | include/kingpin/IOHandler.h:250-266 | In every run of any number of threads and adders as many are handed out or waiting as were added, target by target when the keys differ, and no host has an empty list. |
| PoolCollisions.HandedOutExactly | include/kingpin/TPSharedData.h:47-83 | In any run, handed out plus waiting is added for every target at every moment if and only if no target is added while its key waits in the pool for another host. |
| PoolCollisions.InjectiveNeverClashes | include/kingpin/TPSharedData.h:47-64 | Hosts with different keys never cause that. |
| PoolCollisions.OneNameClashes | include/kingpin/TPSharedData.h:47-64 | A clash between hosts of one name is one of different ports whose hashes agree modulo the width. |
| PoolCollisions.PortsNeverClash | include/kingpin/TPSharedData.h:47-64 | In runs with one name and ports whose hashes differ there is no clash. |
| PoolCollisions.SomeHostsCollide | include/kingpin/TPSharedData.h:48-50 | Whatever the hash functions are, two hosts with names of at most 65 letters and the same port share a key. |
| PoolCollisions.EveryHashClashes | include/kingpin/TPSharedData.h:47-64 | So for every hash two additions break the balance. |
| ClientThreads.HoldTakesBatch | include/kingpin/IOHandler.h:234-264 | In a run with any other threads and adders, a hold of the lock, from its acquisition either way to its release, takes exactly the smaller of batch and total, all for a negative batch. |
| ClientThreads.GetsWork | include/kingpin/IOHandler.h:250-266 | While the lock is free and targets wait, a thread at the head of its loop, asleep or woken can get exactly its batch, busy or idle. |
| ClientThreads.OneTakes | include/kingpin/IOHandler.h:254-264 | Only the owner of the lock is in the pool, and it alone releases it. |
| ClientThreads.NoLostWakeup | include/kingpin/TPSharedData.h:66-72 | While a thread sleeps and a target waits, a notification that wakes it is due. |
| ClientThreads.StopsOnlyWhenIdle | include/kingpin/IOHandler.h:250-266 | If a thread is not asleep or a target waits, some step is possible. |
| ClientThreads.AssertionHoldsExactly | include/kingpin/IOHandler.h:266 | The assertion before epoll_wait never fails if and only if the batch is not zero. |
| ChessGame.MoveMeans | examples/chinese_chess_game/ChessGame.h:101-105 | What a move does to each square. |
| ChessGame.Game.constructor | examples/chinese_chess_game/ChessGame.h:53-81 | The opening position. |
| ChessGame.Game.MoveChess | examples/chinese_chess_game/ChessGame.h:101-105 | The two assignments are the move. |
| ChessGame.Game.MoveText | examples/chinese_chess_game/ChessGame.h:107-115 | Plays the move the text stands for, or fails and changes nothing. |
| ChessGame.ParseExactly | examples/chinese_chess_game/ChessGame.h:107-115 | A text is read as a move if and only if four characters in front of its last one are no blanks, and these are its numbers in order. |
| ChessGame.RoundTrip | examples/chinese_chess_game/ChessGame.h:107-131 | A move's text is read back as that move if and only if all four numbers have one digit. |
| ChessServer.Server.OnConnect | examples/chinese_chess_game/StartServer.cc:41-56 | Pairs the newcomer with the one that waits, or makes it wait; keeps the matching invariant. |
| ChessServer.Server.OnMessage | examples/chinese_chess_game/StartServer.cc:58-68 | A whole message goes to the opponent's mailbox, anything else stays where it is. |
| ChessServer.Server.OnEpollLoop | examples/chinese_chess_game/StartServer.cc:70-81 | Exactly the messages for the thread's own connections are sent, each once. |
| ChessServer.Server.OnPassivelyClosed | examples/chinese_chess_game/StartServer.cc:88-100 | The connection leaves, its opponent is told; keeps the matching invariant. |
| ChessServer.Run | examples/chinese_chess_game/StartServer.cc:41-100 | Over every run of connects and closes: every open connection waits or is paired and no other is, at most one waits, nobody plays itself, pairs are symmetric and no opponent is shared. |
| RelayRefinement.MatchRefines | examples/chinese_chess_game/StartServer.cc:41-56 | Two connections leave the server object in the state the relay starts from. |
| RelayRefinement.StoreRefines | examples/chinese_chess_game/StartServer.cc:58-68 | `onMessage` on a buffer with room is the relay's storing step, and does nothing exactly when that step is not possible. |
| RelayRefinement.ReadableRefines | include/kingpin/IOHandler.h:170-180 | Reading all that is available and calling `onMessage` is the relay's reading and storing steps; the read leaves the room, so the newline test never looks behind the allocation. |
| RelayRefinement.TakeRefines | examples/chinese_chess_game/StartServer.cc:70-81 | `onEpollLoop` of the owning thread is the relay's taking step: the mailbox's text once, or nothing. |
| RelayRefinement.HandleRefines | examples/chinese_chess_game/StartClient.cc:41-45 | Playing a line on the client's board is what the relay says of it, and fails exactly when the relay says so. |
| RelayRefinement.NextLineRefines | examples/chinese_chess_game/StartClient.cc:29-36 | In a game the client's read never overreads, and finding a line is a run of the relay's byte-by-byte reading that ends in handling that line. |
| RelayTheorems.DoKeepsInv | examples/chinese_chess_game/StartClient.cc:29-51 | Every step of clients, server threads and TCP keeps the relay invariant, whatever readable moves are played: one token, in one stage. |
| RelayTheorems.BoardsAgree | examples/chinese_chess_game/StartClient.cc:42-50 | Whenever a player is asked, it is its turn, no move was mistaken, and both boards are the replay of all moves in order. |
| RelayTheorems.NothingLostOrRepeated | examples/chinese_chess_game/StartServer.cc:58-81 | Each player has always heard a prefix of the other's moves, at most the last one missing. |
| RelayTheorems.MailboxNeverOverwritten | examples/chinese_chess_game/StartServer.cc:63-66 | A mailbox is empty whenever a message is stored, and the message is one whole line. |
| RelayTheorems.MovesAreDelivered | examples/chinese_chess_game/StartServer.cc:58-81 | If no move was mistaken, some step is possible until the player is asked; every step but a new move brings bytes nearer. |
| RelayTheorems.LeavesOnlyAtFarewell | examples/chinese_chess_game/StartClient.cc:41 | A client leaves only on hearing the move from (2, 2) to (2, 2). |
| RelayTheorems.LinesFit | examples/chinese_chess_game/StartClient.cc:29-32 | In every run an unfinished line has fewer than eight bytes, so the buffer of 64 is never full. |
| RelayMistakes.AskedExactlyForDistinct | examples/chinese_chess_game/StartClient.cc:41-46 | In any run, after a readable move the other player can still be asked for one if and only if the move's text is no control message. |
| RelayMistakes.NobodyAskedAgain | examples/chinese_chess_game/StartClient.cc:41-46 | After a mistaken move no player is asked again in any continuation. |
| RelayMistakes.StopsExactlyForMistaken | examples/chinese_chess_game/StartClient.cc:41-46 | The game can come to a standstill right after a move if and only if the move is mistaken. |
| RelayMistakes.OutcomeOfMove | examples/chinese_chess_game/StartClient.cc:41-46 | Once the last move has gone as far as it can, the other player is asked, goes on reading or has left, by the move. |
| RelayMistakes.FirstMoveMistaken | examples/chinese_chess_game/StartClient.cc:41-46 | Runs from the start in which the first move ends the game either way. |

## Left out

- LoggerTheorems.NoDeadlock: a waiting thread never meets a standstill; that the backend is
  woken again, or that the destructor's join returns, is not claimed, because a notification
  sent between lib/AsyncLogger.cc:152 and 155 is not remembered.
- LoggerExit.ExitIsReachable: the way out includes being woken, if the backend sleeps; it is shown to
  be possible, not to be taken, for the same reason.
- LoggerExpiry.ErasedIsOld: an entry may be used again between the test and the erase; the second test
  looks at the buffer only, as in the code.
- KernelLaws.ReadAllAtAgain: of EAGAINs it takes the one behind a run of nonempty pieces; any other answer
  is in the contract of `BufferModel.Buffer.ReadNioTillBlock`.
- LoggerTheorems.RecordsArriveWhole: assumes that no entry is erased inside its owner's window (the
  exact condition above), that threads keep their ids for life, and that the log descriptor accepts
  bytes (a write error in the backend would log recursively).
- LoggerTheorems.StrandedForGood: the crash itself is not modelled; the machine stops the thread at the
  line and does not put the null entry into the map.
- BufferModel.Buffer.StripEnd: with consumed bytes in front the run can pass `_start`; the contract then
  gives the new end and the bytes, and `Valid` only if the run did not.
- BufferModel.Buffer.ReadNioTillEnd: bytes that arrive in the same call as an end of file are not
  searched, as in the code; the result says how far the search got.
- Streams.Life: `stripEnd` is not one of its operations, because it removes bytes at the back.
- ListenLock.NothingIsRefused: relies on epoll reporting a descriptor at most once per call.
  `try_lock` by the owner fails, as it does in practice; the standard leaves it undefined.
- ClientThreads.HandedOutExactlyOnce: target by target it assumes different keys; the exact condition is
  `PoolCollisions.HandedOutExactly`.  One iteration of the loop of `_get_from_pool` is one step; the
  connections that are then opened are not followed.
- HandlerBuffers.Run: openings are of connections that are not live and closings of live ones.
  What recycled buffers contain is not stated: they are pooled without `clear()`.
- RelayTheorems.BoardsAgree: both connections stay open, buffers are fresh, each move is written whole,
  and its player can play it and its text is read back (otherwise the player's own program fails
  its assertion or leaves the board).  The line buffer of the client and the server's buffers are texts
  there; `RelayRefinement` and `Framing.NextLineExactly` say that the objects behave so.
- RelayTheorems.MovesAreDelivered: assumes that the server's writes are whole.  After a partial one
  the registration at include/kingpin/IOHandler.h:161 fails, and the connection is closed.
- RelayMistakes.OutcomeOfMove: a client that has left closes its socket; what the server then tells
  the other one is `ChessServer.Server.OnPassivelyClosed`, not part of the relay.
- ChessServer.Run: connection ids are not reused.
- The header of a record is one nonempty text per call; level, time and thread id are not composed.
- `_no_log` and the release of its lock are one step, done under the write lock.  The fields
  `_owner` and `_count` of `RecursiveLock` are replaced by the holder and the depth of the lock itself.
- Integer overflow of sizes, and capacities or search strings that are empty or hold a zero byte.
- The return to EPOLLIN after an asynchronous write (include/kingpin/IOHandler.h:161), so that a
  connection resumes reading is not stated.
- Sockets, DNS, signals, timestamps, `Context`, pipes and `split`: thin wrappers, or of no consequence here.
- The display of the board, prompts, colours and piece names; the program enforces no rules of chess.

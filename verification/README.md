# Concurrent components of an operating-systems course, modelled and proved

The course repository implements, in C and x86-64 assembly, the parts that programs with several
threads are built from. This project models eight of them in Dafny and proves what they promise over
whole runs.

| module | component |
|---|---|
| `MemChannels`, `CounterWrap`, `ChannelSpec` (with `Tallies`, `Commons`) | the shared-memory channel: a ring of byte slots, one mutex, two counting semaphores, any number of threads, five steps per call |
| `Echo`, `EchoStops` | the echo protocol on such channels: one server, any number of clients, terminators; and which requests are still answered once it is told to stop |
| `Messages`, `EchoPrograms` | the server's and the client's program on byte channels, with the layout of a message |
| `EchoRings`, `RingProgress` | the echo protocol on the byte rings themselves, all steps of all calls interleaved |
| `Semaphores` | the multi-unit FIFO semaphore for user threads |
| `Schedulers`, `Machines`, `MachineProgress`, `Uthreads` | the cooperative scheduler: who runs; the machine with its memory, registers and stacks, and what it can do; and the code, one instruction at a time |
| `BlockingQueues`, `ThreadPools` | the monitor-style blocking queue and the thread pool that consumes it |
| `Adders`, `PooledAdders` | the count-down latch and the parallel adder, by itself and on the thread pool |
| `PollTables`, `PollRuns` | the client table of the poll echo server: one turn of its loop, and runs of turns |

Each component has three layers. A datatype holds the state, with history fields where a run needs
them. A step function (`Next`, `Step`, `MNext`) says what one atomic step does, and an invariant is
kept by every step; lemmas about runs, refinement, progress and exact conditions follow from it.
Where the source changes data in place, a class holds that data (the byte buffers and counters of a
channel, registers and memory, the waiter list, the client array) and its methods make the source's
changes, proved against the step function; a wait on a semaphore, a mutex or a condition variable is
one method call. Threads interleave freely between steps: condition variables may wake spuriously and
let other consumers barge in, and a semaphore lets any waiting thread through. Three modules put
components together: `EchoPrograms` runs the code of server and client on the byte channels,
`EchoRings` refines the protocol to the interleaved steps of those channels, and `PooledAdders` runs
the parallel adder on the thread pool.

Four behaviours of the code differ from what its callers might expect. They are kept as they are,
each with a concrete run and the exact condition under which it does no harm:

- a submit that passes the `stopped` test before the flag is set and is put after the last pill is
  accepted and never run (`ThreadPools.OverlapLosesAction`, `ThreadPools.CleanupExact`); two stops that
  overlap leave one pill per worker behind (`ThreadPools.OverlappingStops`, `ThreadPools.JoinedLeavesLate`);
- a client that copies its request into the server's channel behind a terminator waits for its reply
  for ever (`EchoStops.StrandedClient`); a request is still answered if and only if no terminator is
  ahead of it (`EchoStops.AnsweredExactly`);
- a slot of the poll table that is used again keeps the `revents` of its last user, because only
  `fd` and `events` are written on accept; a new client can be read although poll did not report it,
  and a reported one passed over (`PollRuns.StaleRun`, `PollTables.PassIsExactly`);
- a channel whose capacity does not divide 2^64 loses its order when the counters wrap
  (`CounterWrap.WrapBreaksOrder`, `CounterWrap.FifoForeverExactly`); the capacities in use, 8 and 1,
  do divide it.

A smaller one has its exact condition too: posting in two parts is not always posting the sum
(`Semaphores.SplitPostsDiffer`, `Semaphores.SplitPostsExactly`).

`dafny verify dfyconfig.toml` checks everything.

## Model

| member | source | states |
|---|---|---|
| MemChannels.TotalSizeSuffices | 19-ipc/memchannel.c:12-13 | every slot lies inside the mapping `mc_create` asks for if and only if the 64-bit size computation does not overflow |
| MemChannels.SlotsDisjoint | 19-ipc/memchannel.c:67 | two slots never share a byte, and each lies within the item area |
| MemChannels.CountersAgreeExactly | 19-ipc/memchannel.c:66 | the wrapped 64-bit counter picks the slot of an unbounded one for every operation if and only if the capacity divides 2^64 |
| MemChannels.SlotsDiffer | 19-ipc/memchannel.c:77 | messages less than one capacity apart are in different slots, before wrap-around or when the capacity divides 2^64 |
| MemChannels.ChannelsInUse | 19-ipc/echo-server.c:10 | the channels of capacity 8 and 1 deliver in order on every run, of any length |
| MemChannels.InsideNeverStuck | 19-ipc/memchannel.c:62-82 | while a thread is past its wait, one of those can step; a quiet channel lets a put or a get begin |
| MemChannels.NextKeepsCounts | 19-ipc/memchannel.c:62-82 | every step keeps: both semaphores and the threads between wait and post add up to the capacity; stored messages are the items, the puts copied but not posted and the gets waited but not copied |
| MemChannels.CopiesAreGuarded | 19-ipc/memchannel.c:63-79 | a put at its copy has a free slot and a get at its copy an unread one, so nothing unread is overwritten and nothing empty is read |
| MemChannels.NextKeepsInv | 19-ipc/memchannel.c:62-82 | every step of every thread keeps the counts, mutual exclusion and each unread message intact in its slot |
| MemChannels.GetReadsNext | 19-ipc/memchannel.c:73-82 | the bytes a get copies out are those of the oldest message not yet taken |
| MemChannels.ChannelIsFifo | 19-ipc/memchannel.c:62-82 | for any number of threads and every interleaving, what is copied out is byte for byte a prefix of what is copied in, at most a capacity behind, and the semaphores are conserved |
| MemChannels.StepRefines | 19-ipc/memchannel.c:62-82 | every step of the byte ring is a step of a bounded FIFO queue between two semaphores |
| MemChannels.MemCopy | 19-ipc/memchannel.c:67 | exactly the n bytes of the destination range become those of the source, all others stay |
| MemChannels.MemChannel.constructor | 19-ipc/memchannel.c:20-38 | a new channel is empty, has `capacity` spaces and satisfies the invariant |
| MemChannels.MemChannel.WaitSpace | 19-ipc/memchannel.c:63 | takes one space: the step of the model |
| MemChannels.MemChannel.WaitItems | 19-ipc/memchannel.c:74 | takes one item: the step of the model |
| MemChannels.MemChannel.TakeLock | 19-ipc/memchannel.c:64 | enters the critical section: the step of the model |
| MemChannels.MemChannel.PutItem | 19-ipc/memchannel.c:65-68 | the critical section of a put, on the byte array, is the copy step of the model |
| MemChannels.MemChannel.GetItem | 19-ipc/memchannel.c:76-79 | the critical section of a get fills the caller's buffer with the bytes the model says |
| MemChannels.MemChannel.DropLock | 19-ipc/memchannel.c:69 | leaves the critical section: the step of the model |
| MemChannels.MemChannel.PostItems | 19-ipc/memchannel.c:70 | announces one item: the step of the model |
| MemChannels.MemChannel.PostSpace | 19-ipc/memchannel.c:81 | announces one space: the step of the model |
| CounterWrap.WrapBreaksOrder | 19-ipc/memchannel.c:66-77 | if the capacity does not divide 2^64, there is a run that hands out a message out of turn |
| CounterWrap.FifoForeverExactly | 19-ipc/memchannel.c:62-82 | the channel is FIFO on every run, of any length, if and only if its capacity divides 2^64 |
| Echo.NextKeepsInv | 19-ipc/echo-server.c:22-41 | every step keeps: each client's one outstanding request is in exactly one place, and the server channel's semaphores are conserved |
| Echo.ServerPutNeverBlocks | 19-ipc/echo-server.c:35-40 | the reply channel exists when the server opens it, and its put into capacity 1 never waits |
| Echo.EchoIsFaithful | 19-ipc/echo-client.c:29-53 | over every run with any number of clients, the i-th reply of a client is the server's answer to its own i-th request with its text, with at most one outstanding |
| Echo.TypingSends | 19-ipc/echo-client.c:34-44 | a line loses its last character whatever it is; of "hi" and a newline "hi" is about to be sent; an empty text or end of file closes the client |
| Echo.RepliesAreTyped | 19-ipc/echo-client.c:31-53 | over every run, the texts of a client's replies are those of the lines typed at it, each without its last character, in order |
| Echo.NeverStuck | 19-ipc/echo-client.c:29-53 | while a client is in an exchange and the server has not stopped, some process can step without new input |
| Echo.ServerBringsNearer | 19-ipc/echo-server.c:22-41 | each server step brings a waiting request exactly one step nearer to its answer |
| EchoStops.RequestIsAnswered | 19-ipc/echo-server.c:22-41 | a request with no terminator ahead of it is answered within seven server steps per message ahead, whatever else arrives and even if the server is told to stop meanwhile |
| EchoStops.BehindTermNeverAnswered | 19-ipc/echo-server.c:26-29 | a request with a terminator ahead of it is never answered, in any run |
| EchoStops.AnsweredExactly | 19-ipc/echo-server.c:22-41 | an outstanding request can still be answered if and only if no terminator is held by the server or queued ahead of it and the server has not left its loop |
| EchoStops.OthersKeepAhead | 19-ipc/echo-term.c:15-17 | whether a terminator is ahead of a request is settled when both are in the channel: no client or terminator changes it |
| EchoStops.EndedAnswersNobody | 19-ipc/echo-server.c:26-44 | once the server has left its loop, no client gets a further reply, whatever it still puts into the channel, destroyed or not yet |
| EchoStops.EndedStrands | 19-ipc/echo-client.c:50 | ... and a client that waits for a reply not put by then stays where it is for ever |
| EchoStops.ConnectsUntilDestroyed | 19-ipc/echo-server.c:28-44 | a client can still connect when the server has left its loop, and no more once it has destroyed its channel |
| EchoStops.LateClientNeverSends | 19-ipc/echo-client.c:22-26 | a client that connects after that closes, and never sends anything, in any run |
| EchoStops.StrandedClient | 19-ipc/echo-client.c:47-50 | a run from the start in which a client has its space first, the terminator copies first, the server stops, and the client waits for ever |
| Messages.SenderRoundTrip | 19-ipc/echo-service.h:13-16 | the four bytes of a sender read back as that 32-bit integer, negative ones included |
| Messages.LittleEndian | 19-ipc/echo-service.h:13-16 | the sender is stored least significant byte first, in two's complement |
| Messages.TextRoundTrip | 19-ipc/echo-client.c:34-39 | a text stored with its NUL reads back, whatever an earlier message left behind it in the buffer |
| Messages.ReplyKeepsText | 19-ipc/echo-server.c:37 | overwriting the sender leaves the text of the message |
| EchoPrograms.AnsweredRuns | 19-ipc/echo-server.c:22-41 | taking a message and replying, as the server's turn does it, is a run of server steps of the protocol |
| EchoPrograms.AskedRuns | 19-ipc/echo-client.c:34-47 | reading a line and putting the request is a run of that client's steps of the protocol |
| EchoPrograms.ToldRuns | 19-ipc/echo-client.c:50 | taking the reply is a run of that client's steps of the protocol |
| EchoPrograms.EchoServer.constructor | 19-ipc/echo-server.c:10-21 | a byte channel of capacity 8 that holds the protocol's empty server channel |
| EchoPrograms.EchoServer.SetSender | 19-ipc/echo-server.c:37 | the first four bytes of the buffer become the server's process id, the rest stays |
| EchoPrograms.EchoServer.Turn | 19-ipc/echo-server.c:24-40 | on the bytes of the channels, one turn leaves exactly the channels of the protocol's answer: the request gone, its text in the sender's reply channel, all others as they were, and the loop left on a termination message |
| EchoPrograms.EchoClient.constructor | 19-ipc/echo-client.c:14-29 | a reply channel of capacity 1, empty, and a message buffer with the client's process id |
| EchoPrograms.EchoClient.ReadLine | 19-ipc/echo-client.c:34-39 | the text in the buffer is the line less its last character, byte for byte, and the sender is the client |
| EchoPrograms.EchoClient.Send | 19-ipc/echo-client.c:34-47 | the request appears in the server's byte channel as the protocol says, or the client closes on an empty line or end of file |
| EchoPrograms.EchoClient.Receive | 19-ipc/echo-client.c:50-52 | yields the text at the head of the reply channel and leaves the channel the protocol says |
| EchoRings.StepSimulates | 19-ipc/memchannel.c:62-82 | with server, clients and terminators at any of the five steps of their calls, each step on the byte rings is one step of the protocol, or none if it takes or drops a lock |
| EchoRings.RunSimulates | 19-ipc/memchannel.c:62-82 | every run on the rings is a run of the protocol with the same channels, programs and texts |
| EchoRings.RingsAreFaithful | 19-ipc/echo-client.c:29-53 | over every run on the rings, with any number of clients and terminators, the texts a client has received are those it has sent, in order, at most one outstanding |
| RingProgress.NextKeepsCoupled | 19-ipc/memchannel.c:62-82 | every step keeps each program and its place inside the call in agreement, so a program waits for semaphores and locks only |
| RingProgress.InputIsPossible | 19-ipc/echo-client.c:31-39 | at its prompt a client accepts any line that fits, whatever is left in its buffer; any new client may arrive, and a terminator may begin while the channel has space |
| RingProgress.RunsNeverStuck | 19-ipc/echo-client.c:29-53 | in every state the rings reach before the stop, while a client is in an exchange some thread can step without further input |
| EchoPrograms.Exchange | 19-ipc/echo-client.c:31-53 | a line typed at a client comes back from the server less its last character, as bytes through both channels, and both are ready for the next |
| EchoPrograms.Session | 19-ipc/echo-client.c:31-53 | from the start of server and client, any sequence of texts, each typed with a newline, comes back as it is |
| Semaphores.FitStops | 15-uthread-synch/uthreads/uthread/semaphore.c:76-88 | what the release loop gives out fits in the units, and it stops at the first request that does not fit, with no units, or with no waiters |
| Semaphores.FitExactly | 15-uthread-synch/uthreads/uthread/semaphore.c:76-88 | for requests of zero units too: a waiter is released if and only if all up to it fit and those ahead of it leave at least one unit |
| Semaphores.FitIsLongest | 15-uthread-synch/uthreads/uthread/semaphore.c:76-88 | a prefix of the waiters fits in the units if and only if it is no longer than the one released |
| Semaphores.WaitKeepsValid | 15-uthread-synch/uthreads/uthread/semaphore.c:42-51 | a wait keeps units within 0..limit and leaves nobody waiting who could be served |
| Semaphores.PostKeepsValid | 15-uthread-synch/uthreads/uthread/semaphore.c:67-88 | a post keeps the same, and what it gives out plus what is left is the clipped sum |
| Semaphores.ServeTwice | 15-uthread-synch/uthreads/uthread/semaphore.c:76-88 | two release loops in a row serve like one with the second pool and what the first gave out |
| Semaphores.SplitReleasesNoFewer | 15-uthread-synch/uthreads/uthread/semaphore.c:62-90 | two posts leave no more waiters than one post of the sum |
| Semaphores.SplitPostsExactly | 15-uthread-synch/uthreads/uthread/semaphore.c:62-90 | two posts equal one of the sum if and only if the second is zero, the sum is not clipped, or the request at the head, if any, does not fit in the first |
| Semaphores.SplitPostsDiffer | 15-uthread-synch/uthreads/uthread/semaphore.c:67-69 | limit 2 and two waiters for 2 units: posting 2 and 2 serves both, posting 4 serves one |
| Semaphores.StepKeepsInv | 15-uthread-synch/uthreads/uthread/semaphore.c:36-90 | every call keeps: arrivals are grants followed by waiters, and units are initial + posted - clipped - granted |
| Semaphores.RunsAreFairAndConserve | 15-uthread-synch/uthreads/uthread/semaphore.c:36-90 | over every run grants are a prefix of arrivals, nobody servable is left waiting and units stay within 0..limit and accounted for |
| Semaphores.HistoryIsOfCalls | 15-uthread-synch/uthreads/uthread/semaphore.c:36-90 | over every run, arrivals are the requests of the calls made, in order, and posted units are those of all posts |
| Semaphores.HeldUnitsConserved | 15-uthread-synch/uthreads/uthread/semaphore.c:67-88 | if threads post only units they hold, nothing is ever clipped and units plus units held are the initial value |
| Semaphores.HeldByThread | 15-uthread-synch/uthreads/uthread/semaphore.c:42-86 | over every such run a thread holds the units of its own granted requests, granted at once or from the wait list, less those it has posted |
| Semaphores.HeldFromStart | 15-uthread-synch/uthreads/uthread/semaphore.c:42-86 | ... from the start of the semaphore: exactly those |
| Semaphores.ReleasedMayPost | 15-uthread-synch/uthreads/uthread/semaphore.c:76-88 | whoever a post releases from the wait list holds its units then, and may post them |
| Semaphores.TakeAndGiveBack | 15-uthread-synch/uthreads/uthread/semaphore.c:42-69 | a thread that takes units and gives them back posts only what it holds |
| Semaphores.PostBringsNearer | 15-uthread-synch/uthreads/uthread/semaphore.c:67-89 | a post of at least one unit releases a waiter or strictly reduces the units it still needs, whatever is clipped |
| Semaphores.WaiterIsServed | 15-uthread-synch/uthreads/uthread/semaphore.c:36-90 | with requests up to its own in 1..limit, a waiter is served after at most as many positive posts as units it needs, whatever else arrives |
| Semaphores.OversizedBlocksForever | 15-uthread-synch/uthreads/uthread/semaphore.c:79-84 | a request above the limit, and everyone behind it, is never served in any run |
| Semaphores.Semaphore.constructor | 15-uthread-synch/uthreads/uthread/semaphore.c:26-30 | the given units and limit, nobody waiting |
| Semaphores.Semaphore.Acquire | 15-uthread-synch/uthreads/uthread/semaphore.c:36-57 | grants or queues as the model's wait |
| Semaphores.Semaphore.Release | 15-uthread-synch/uthreads/uthread/semaphore.c:62-90 | leaves the semaphore of the model's post and activates the released threads in order |
| Semaphores.Semaphore.ReleaseLoop | 15-uthread-synch/uthreads/uthread/semaphore.c:76-89 | the loop takes exactly the waiters that fit, in order, and no more |
| Schedulers.NextKeepsInv | 14-uthread-scheduling/uthread.c:46-101 | create, run, yield and exit keep: a duplicate-free queue without main or the running thread, and live threads are created minus exited |
| Schedulers.MainResumesLast | 14-uthread-scheduling/uthread.c:46-50 | main gets the processor only with an empty queue and every created thread exited |
| Schedulers.LiveThreads | 14-uthread-scheduling/uthread.c:46-101 | over every run, live user threads are the running one and the queue, each once, and are those created that have not exited |
| Schedulers.RoundRobin | 14-uthread-scheduling/uthread.c:52-101 | the thread at position k advances one place per switch and runs after exactly k + 1, whatever the mix of create, yield and exit |
| Machines.FrameRoundTrip | 14-uthread-scheduling/ctxsw.s:12-32 | the six pops and the return read back exactly what the call and the six pushes stored |
| Machines.StoreStaysHome | 14-uthread-scheduling/ctxsw.s:12-19 | saving a context changes only the running thread's own stack and descriptor, and leaves a frame of its context there |
| Machines.SwitchLoads | 14-uthread-scheduling/ctxsw.s:23-32 | the frame a switch loads holds the context its thread was suspended with |
| Machines.AnySwitchKeepsMem | 14-uthread-scheduling/ctxsw.s:10-32 | a switch keeps: every mapped word belongs to one existing thread, suspended threads have intact frames, live threads keep routine and argument |
| Machines.ExitKeepsFrame | 14-uthread-scheduling/ctxsw.s:34-49 | calling `cleanup_thread` on the next thread's stack and unmapping the exiting one leave every other frame intact, the next thread's included |
| Machines.ExitKeepsMem | 14-uthread-scheduling/ctxsw.s:34-49 | an exit keeps ownership, frames and start data of the remaining threads |
| Machines.CreateMemory | 14-uthread-scheduling/uthread.c:78-85 | the new block holds a frame of zeroed registers returning to `internal_start`, and a descriptor with routine and argument; all other memory stays |
| Machines.CreateKeepsMem | 14-uthread-scheduling/uthread.c:75-90 | a creation keeps ownership, frames and start data |
| Machines.UserCodeKeepsMem | 14-uthread-scheduling/uthread.c:37-40 | whatever a thread does on its own stack keeps ownership, frames and start data |
| Machines.MNextKeepsInv | 14-uthread-scheduling/uthread.c:46-101 | every step of the machine keeps the whole invariant |
| Machines.MachineRefinesScheduler | 14-uthread-scheduling/uthread.c:46-101 | the scheduler allows every step, and when it has another thread run, the processor's stack pointer is in that thread's own stack, by ownership of memory, with room for a switch |
| Machines.ResumesAsSuspended | 14-uthread-scheduling/ctxsw.s:10-49 | whoever a step sets running has exactly the registers, stack pointer and return address it was suspended with |
| Machines.ExitReleasesOwnBlock | 14-uthread-scheduling/uthread.c:42-44 | an exit unmaps exactly the exiting thread's block, all of it mapped until then, off the stack in use, and runs another thread |
| Machines.MachineRunsAreSafe | 14-uthread-scheduling/uthread.c:67-101 | over every run a block is mapped exactly from creation to exit, nothing is leaked, and only main's memory is left when all have exited |
| Machines.BackAsLeft | 14-uthread-scheduling/ctxsw.s:10-49 | a suspended thread comes back, after any run of others, with the context it was suspended with and its routine and argument |
| Machines.SwitchIsTransparent | 14-uthread-scheduling/ctxsw.s:10-32 | a thread that gives up the processor gets it back, after any run of others, with its registers, stack pointer and return address |
| Machines.FirstResume | 14-uthread-scheduling/uthread.c:37-40 | the first time a created thread runs it enters `internal_start` with zeroed registers, at the top of its own stack, and finds its own routine and argument in its descriptor |
| MachineProgress.EveryoneCanComeBack | 14-uthread-scheduling/uthread.c:46-101 | every suspended thread can come back: a ready one if the others only give up the processor, main once they have exited |
| MachineProgress.CanFinish | 14-uthread-scheduling/uthread.c:67-101 | from every state some run ends with main running, an empty queue, and every created thread exited |
| MachineProgress.CanCreate | 14-uthread-scheduling/uthread.c:75-90 | in every state a thread with any routine and argument can be created |
| MachineProgress.CanCompute | 14-uthread-scheduling/uthread.c:37-40 | the running thread can write anything on its own stack and go anywhere |
| Uthreads.Cpu.constructor | 14-uthread-scheduling/uthread.c:57-59 | the start of the program: only main, an empty ready queue, and the machine's invariant |
| Uthreads.Cpu.Push | 14-uthread-scheduling/ctxsw.s:12 | one word further down holds the value, the rest of memory stays |
| Uthreads.Cpu.Pop | 14-uthread-scheduling/ctxsw.s:25 | yields the word on top and moves up one |
| Uthreads.Cpu.PushFrame | 14-uthread-scheduling/ctxsw.s:12-17 | the six pushes complete a frame of the current context |
| Uthreads.Cpu.PopFrame | 14-uthread-scheduling/ctxsw.s:25-32 | the six pops and the return load the frame's context |
| Uthreads.Cpu.SaveContext | 14-uthread-scheduling/ctxsw.s:12-19 | the memory of the model's store |
| Uthreads.Cpu.ContextSwitch | 14-uthread-scheduling/ctxsw.s:10-32 | the current context is stored, the next thread's loaded and `running_thread` set |
| Uthreads.Cpu.CleanupThread | 14-uthread-scheduling/uthread.c:42-44 | removes the victim's block, called only with the stack pointer outside it |
| Uthreads.Cpu.CallCleanup | 14-uthread-scheduling/ctxsw.s:40 | the call writes only below the stack pointer, which is back where it was |
| Uthreads.Cpu.InternalExit | 14-uthread-scheduling/ctxsw.s:34-49 | the exiting block is gone, the next thread's context loaded and `running_thread` set |
| Uthreads.Cpu.ExtractNextReadyThread | 14-uthread-scheduling/uthread.c:46-50 | the head of the ready queue, or main if it is empty |
| Uthreads.Cpu.InitBlock | 14-uthread-scheduling/uthread.c:78-85 | five writes into zeroed memory give the model's initialized block |
| Uthreads.Cpu.UtCreate | 14-uthread-scheduling/uthread.c:75-90 | the machine's create step |
| Uthreads.Cpu.Schedule | 14-uthread-scheduling/uthread.c:52-55 | a switch to the scheduler's choice |
| Uthreads.Cpu.UtRun | 14-uthread-scheduling/uthread.c:67-73 | the machine's run step |
| Uthreads.Cpu.UtYield | 14-uthread-scheduling/uthread.c:92-97 | the machine's yield step, nothing if nobody is ready |
| Uthreads.Cpu.UtExit | 14-uthread-scheduling/uthread.c:99-101 | the machine's exit step |
| Uthreads.Cpu.InternalStart | 14-uthread-scheduling/uthread.c:37-38 | through `running_thread`, reads the routine and argument the running thread was created with |
| BlockingQueues.NextKeepsInv | 17-pthreads-monitors/02-queue-wait/queue.c:24-48 | no lost wakeup: while anyone sleeps un-notified there are no more items than notified threads yet to recheck, with barging and spurious wakeups |
| BlockingQueues.RunsDeliverInOrder | 17-pthreads-monitors/02-queue-wait/queue.c:24-56 | over every run each item goes to one consumer in insertion order, the rest is queued, and a non-empty queue never has all its waiters asleep |
| BlockingQueues.DeliveredByOwnCalls | 17-pthreads-monitors/02-queue-wait/queue.c:37-56 | over every run a consumer is delivered at most one item for each time it looks |
| BlockingQueues.WokenTakesOrSleeps | 17-pthreads-monitors/02-queue-wait/queue.c:32-48 | a put may wake any one or several of the sleepers; one of them takes the item, or sleeps again if another consumer was faster |
| BlockingQueues.BlockingQueue.constructor | 17-pthreads-monitors/02-queue-wait/queue.c:8-13 | empty, nobody waiting |
| BlockingQueues.BlockingQueue.Put | 17-pthreads-monitors/02-queue-wait/queue.c:24-35 | appends the item and wakes a waiter if there is one, size in step with the list |
| BlockingQueues.BlockingQueue.Get | 17-pthreads-monitors/02-queue-wait/queue.c:37-56 | one critical section: the head, or the caller is asleep; size in step with the list |
| ThreadPools.NextKeepsPoolInv | 18-thread-pool/thread_pool.c:10-71 | every step keeps: queue order, tickets queued, run and completed once, one pill per worker that left, late puts behind the last pill |
| ThreadPools.ActionsRunOnce | 18-thread-pool/thread_pool.c:10-27 | over every run no accepted action runs twice or on two workers, and workers that left took one pill each |
| ThreadPools.JoinedLeavesLate | 18-thread-pool/thread_pool.c:39-71 | when all joins have returned, no worker is busy and the queue holds exactly what was put behind a pill for every worker, the pills of all stops but one included |
| ThreadPools.CleanupExact | 18-thread-pool/thread_pool.c:39-71 | when all joins have returned, every accepted action has run if and only if none was put behind a pill for every worker or is still to be put; and then the queue holds only the pills of further stops |
| ThreadPools.CleanupFinishesAll | 18-thread-pool/thread_pool.c:56-71 | if no submit overlaps the first stop, actions precede pills, after the joins every accepted action has run, and only pills of further stops are left |
| ThreadPools.StopsInTurnStopOnce | 18-thread-pool/thread_pool.c:39-71 | with any number of stops one after another (a clean-up stops again), the flag is set at most once and at most one pill per worker is queued or owed; and if no submit overlaps, the joins leave an empty queue and every accepted action has run |
| ThreadPools.StoppedStaysAsIs | 18-thread-pool/thread_pool.c:56-64 | a stopped pool rejects every submit, and stopping it again changes nothing |
| ThreadPools.SpuriousWakeRechecks | 17-pthreads-monitors/02-queue-wait/queue.c:41-43 | a worker that wakes for nothing looks again and sleeps again |
| ThreadPools.OverlapLosesAction | 18-thread-pool/thread_pool.c:56-65 | a submit that overlaps stop is accepted and never run: the interleaving |
| ThreadPools.OverlappingStops | 18-thread-pool/thread_pool.c:63-70 | two stops can both pass the test and owe two pills per worker: the interleaving |
| ThreadPools.WorkersNeverAllStuck | 18-thread-pool/thread_pool.c:39-47 | while there is an item or a join waits, some worker can step without a spurious wakeup |
| ThreadPools.JoinsReturn | 18-thread-pool/thread_pool.c:39-47 | over every run workers take at most one step each, three per item put and one per wakeup, and when none can go on after the last pill all have left: the joins return |
| ThreadPools.ThreadPool.constructor | 18-thread-pool/thread_pool.c:29-37 | an empty queue, not stopped, every worker at its loop |
| ThreadPools.ThreadPool.SubmitTest | 18-thread-pool/thread_pool.c:57 | rejects exactly when stopped |
| ThreadPools.ThreadPool.SubmitPut | 18-thread-pool/thread_pool.c:49-54 | the model's put of an accepted action |
| ThreadPools.ThreadPool.StopTest | 18-thread-pool/thread_pool.c:64 | the unlocked flag test of a stop: goes on exactly when not stopped, and otherwise changes nothing |
| ThreadPools.ThreadPool.StopSet | 18-thread-pool/thread_pool.c:65 | sets the flag and owes one pill per worker, also if another stop has meanwhile done so |
| ThreadPools.ThreadPool.StopPill | 18-thread-pool/thread_pool.c:67-69 | the model's put of one pill |
| ThreadPools.ThreadPool.WorkerGet | 18-thread-pool/thread_pool.c:13-22 | the worker sleeps, leaves on a pill, or takes the head action |
| ThreadPools.ThreadPool.Finish | 18-thread-pool/thread_pool.c:24 | the worker's action is complete and the worker back at its loop |
| Adders.SlicesPartition | 18-thread-pool/adder.c:51-59 | every index is in exactly one slice, the one its quotient by the region size names, clipped and empty slices included |
| Adders.SlicesAreFair | 18-thread-pool/adder.c:51-59 | consecutive slices meet, all but the last non-empty one are equally long, and none is longer than its fair share, nvals / nthreads rounded up |
| Adders.SliceSumsAddUp | 18-thread-pool/adder.c:66-70 | the totals of the slices add up to the sum of the array |
| Adders.PartialSumsFit | 18-thread-pool/adder.c:23-28 | no partial sum of up to 2^32 32-bit values leaves the range of a 64-bit `long` |
| Adders.NextKeepsInv | 18-thread-pool/adder.c:37-71 | every memory access, count-down and wait keeps: partial sums right, the counter is the tasks not yet counted, nobody sleeps at zero |
| Adders.ParallelEqualsSequential | 18-thread-pool/adder.c:47-71 | for every array, thread count and interleaving, the result is the sequential sum, and totals are read only after all are written |
| Adders.AdderNeverStuck | 18-thread-pool/countdownlatch.c:14-35 | until it has returned, something other than a spurious wakeup can step |
| Adders.SpuriousWakeRechecks | 18-thread-pool/countdownlatch.c:30-32 | a caller that wakes for nothing finds the latch above zero and sleeps again |
| Adders.AdderReturns | 18-thread-pool/adder.c:47-71 | if submitted tasks can run, a run has at most nvals + 5 nthreads + 3 steps and two more per spurious wakeup, and one that cannot go on has returned the sequential sum |
| PooledAdders.NextKeepsInv | 18-thread-pool/adder.c:54-61 | with tasks summed only by a worker that has taken them, every step keeps both invariants and the pool's tickets in step with the tasks |
| PooledAdders.NeverStuck | 18-thread-pool/adder.c:47-71 | until `par_adder` has returned, caller or some worker can step without a spurious wakeup |
| PooledAdders.PooledAdderReturns | 18-thread-pool/adder.c:47-71 | on a pool of at least one worker that nobody stops, every run is bounded by the work and the spurious wakeups, one that cannot go on has returned, and the result is the sequential sum |
| Adders.SeqAdder | 18-thread-pool/adder.c:23-28 | the sum of the first nvals values |
| Adders.SumTask.ParFunc | 18-thread-pool/adder.c:37-45 | the task's total is the sum of its slice, zero for one past the end, and its latch is counted down |
| Adders.RunTasks | 18-thread-pool/adder.c:54-61 | in any order, every total is its slice's sum and the latch reaches zero |
| Adders.Slice | 18-thread-pool/adder.c:51-59 | distinct tasks with the slices of the model; on the tasks themselves: they cover the array, consecutive ones meet, and none exceeds its fair share |
| Adders.Combine | 18-thread-pool/adder.c:66-70 | the sum of the tasks' totals |
| Adders.ParAdder | 18-thread-pool/adder.c:47-71 | the sequential sum, for tasks run in any order, with the latch passed |
| Adders.CountDownLatch.CountDown | 18-thread-pool/countdownlatch.c:14-25 | counts down to zero, never below, and wakes everybody at zero and nobody before |
| Adders.CountDownLatch.AwaitTest | 18-thread-pool/countdownlatch.c:27-35 | passes exactly at zero or below, otherwise sleeps |
| PollTables.RemoveDropsOne | 21-async/01-poll/echo-server.c:134-135 | moving the last slot over slot i drops only slot i, and the moved one is still to be scanned |
| PollTables.ScanIsExact | 21-async/01-poll/echo-server.c:110-140 | given at least as many events as ready slots, each client is handled exactly as often as it is ready, despite swap-remove and early exit |
| PollTables.ScanConserves | 21-async/01-poll/echo-server.c:110-140 | whatever the count and the revents, the scan loses no client but those it closes and leaves earlier slots alone |
| PollTables.ScanClosesRight | 21-async/01-poll/echo-server.c:115-136 | the closed clients are the handled ones that hung up or said "quit", and the scan fails exactly when a handled one fails |
| PollTables.FailureIsLast | 21-async/01-poll/echo-server.c:115-129 | nobody is handled after a client that fails |
| PollTables.PassConserves | 21-async/01-poll/echo-server.c:72-141 | one turn, whatever poll's count and the left-over revents, leaves the old clients plus the accepted one minus the closed ones, in an array of the same size |
| PollTables.PassIsExact | 21-async/01-poll/echo-server.c:72-141 | with poll's count correct and no left-over revents in the slot used, each ready client is handled exactly once and nobody else |
| PollTables.AnyBitIsHandled | 21-async/01-poll/echo-server.c:110-111 | under the same conditions, and unless a client fails, a client is handled if and only if any bit at all of its revents is set |
| PollTables.StaleRevents | 21-async/01-poll/echo-server.c:102-110 | left-over `revents` do no harm, whatever the clients do, if and only if there are none, or at most one event is counted and it is a client's |
| PollTables.PassIsExactly | 21-async/01-poll/echo-server.c:102-140 | with poll's count correct, a turn in which a new client enters handles just the reported clients, whatever they do, if and only if the slot it enters is clean or at most one event is counted beside the connection and it is a client's |
| PollRuns.RunIsExact | 21-async/01-poll/echo-server.c:71-141 | over any run of turns in which that holds, every turn handles exactly the clients reported |
| PollRuns.RunConserves | 21-async/01-poll/echo-server.c:71-141 | over any run, the table holds the clients it began with and those that entered, less those closed, and keeps its size and first two descriptors |
| PollRuns.ThreeClientsConnect | 21-async/01-poll/echo-server.c:80-107 | in an array of any size, three turns without clients lead to the table of the next run |
| PollRuns.StaleRun | 21-async/01-poll/echo-server.c:102-136 | in an array of any size, two turns with poll's counts correct: a client leaves and its slot dies ready, then a new client in that slot is read without having been reported and a reported one is passed over |
| PollTables.PollServer.constructor | 21-async/01-poll/echo-server.c:56-66 | standard input and the listening socket are the first two descriptors; nothing else in the array is initialized |
| PollTables.PollServer.RemoveAt | 21-async/01-poll/echo-server.c:134 | the last slot is moved over slot i and dies with what it holds |
| PollTables.PollServer.Append | 21-async/01-poll/echo-server.c:98-105 | the first dead slot gets the descriptor and keeps its revents, or a full table stays as it is |
| PollTables.PollServer.Serve | 21-async/01-poll/echo-server.c:110-140 | the scan of the array in place is the scan of the model, dead slots included |
| PollTables.PollServer.Turn | 21-async/01-poll/echo-server.c:72-141 | one turn of the event loop is the pass of the model on the whole array; input at standard input, or a failing accept, stops the loop with nobody handled and the array untouched, and otherwise it goes on unless a handled client fails |

## Left out

What the model takes for granted:

- Mutexes, condition variables and counting semaphores are atomic steps. A signal wakes at least one waiter if there is one; spurious wakeups may happen at any time; nothing is fair. Semaphore values stay below SEM_VALUE_MAX.
- Allocation, mapping and thread creation succeed; no process or thread dies in the middle of a call; actions and user routines are not required to end.
- Semaphores.Semaphore.Release: requires that the sum at line 67 does not exceed INT_MAX, which the source does not check; posts are not negative. Requests may be zero, except where a lemma says otherwise (a request of zero can wait behind an empty semaphore, because the loop stops at zero units).
- Semaphores.FitIsLongest: needs requests of at least one unit; with zero requests the loop guard `units > 0` can stop earlier, as `Semaphores.FitExactly` says.
- MemChannels.ChannelIsFifo: beyond 2^64 messages only for capacities that divide 2^64; `CounterWrap.FifoForeverExactly` shows that this is necessary.
- Machines.HasRoom: a stack never overflows; memory is counted in 8-byte words and only stacks and descriptors are modelled, so a thread's own code may write its stack but not another's. Code of the source compiled between user code and `context_switch` (the C frames of `schedule` and `ut_yield`) counts as the thread's own code.
- MachineProgress.CanFinish: main's stack has room for one switch.
- Uthreads.Cpu.UtRun: the main thread's descriptor is at one fixed address outside the part of its stack in use; in the source it is a local of `ut_run`. Before the first `ut_run` the source has no running thread; the model has main.
- Machines.FirstResume: stack alignment at the entry of `internal_start` is not modelled; floating-point control words are not switched by the source and not modelled.
- ThreadPools.JoinedLeavesLate: is about a moment when every stop has queued its pills; a clean-up whose joins return before another stop has done so destroys a queue still in use.
- EchoStops.EndedAnswersNobody: what C leaves undefined, the use of semaphores and mutex of a destroyed channel by a process that still has it mapped, goes on here as before the destruction. A reply channel is named by the client's process id, which is not zero and not used again.
- EchoPrograms.EchoClient.ReadLine: a typed line holds no NUL and fits the buffer.
- EchoPrograms.EchoServer.Turn: runs when a message is there and the reply channel has space, with nobody else inside the channels; waiting and interleaving are those of `EchoRings`.
- MemChannels.MemChannel.Put: likewise the whole call with nobody else inside; its five steps interleave in the state machine.
- EchoPrograms.Session: one client and the server take turns; any number of clients, interleaved, are the subject of `EchoRings.RingsAreFaithful`.
- Adders.Slice: `size_t` arithmetic does not overflow and slice starts past the end of the array are numbers, not pointers.
- Adders.AdderReturns: a submitted task can run at once; `PooledAdders` needs a worker for it.
- PooledAdders.PooledAdderReturns: nobody else uses or stops the pool meanwhile, so every submit is accepted; the source ignores the result of `thread_pool_submit`, and on a stopped pool the latch would stay above zero.
- Adders.ParAdder: runs the tasks one after another in an arbitrary order; interleaving them is the state machine of `Adders.ParallelEqualsSequential`.
- PollTables.PassIsExact: poll succeeds and its count is right (`PollTables.PassConserves` needs neither); the buffer overrun by one at `buf[len]` when a read fills the buffer is outside the model, which has no text. Whether a client says "quit" is an input.
- BlockingQueues.BlockingQueue.Get: tests the size, as exercise 18 does, where exercise 17 tests the list; the methods keep the two equal.
- Linked lists (list.h), in all components, are sequences: their pointers are not modelled.

What the repository does that is not modelled:

- Sockets, terminal input and output, printing and name formatting; opening and closing shared memory and `mc_destroy`.
- Pipes, signals, processes, dynamic libraries, memory-mapped files.
- The epoll, libuv and multi-threaded echo servers: mainly connection handling.
- `ut_activate`, `ut_deactivate` and the event of exercise 15: the semaphore's effect on the ready queue is the sequence of activated threads.
- Copies of the same code in other exercises (17-pthreads-monitors/03-countdownlatch, 20-net-sockets/03-thread-pool, 13-uthread-ctxsw), and the queue without waiting.
- Locked counters, time arithmetic and unlocked size reads.

# Verified model of the reactor server

This project models the concurrent core of `advanced-reactor-server`, and two
data structures of `linux/reactor-server`, in Dafny.

The server has one accept thread, several I/O threads and several workers. The
accept thread hands each new connection to an I/O thread through a pipe. The I/O
thread registers it with its event loop, turns every chunk it reads into a task,
and pushes the task on one bounded queue. A worker pops the task, formats an echo
response into the connection, and puts a message in the I/O thread's inbox; a byte
in a second pipe wakes that thread, which then watches the socket for writability
and sends the response. A connection is shared by all of these and is freed by
whoever drops its last reference.

Four state machines describe this, each with a `Reachable` predicate over all
interleavings, and a fifth puts three of them in step. The main theorems are about
every reachable state, or every run.

- `WorkerPool*` — the bounded queue with its two condition variables, the workers,
  shutdown and teardown: no lost wake-up, first-in-first-out, one fate per task, no
  deadlock, settling, termination of shutdown.
- `Mailbox` — one inbox with its edge-triggered pipe: exactly when a message is stranded.
- `Reactor*` — connections, tasks, messages, registrations and descriptors as heap
  objects: exact reference counts, nothing dangles, freed exactly once, no stranded
  response, bytes delivered in order, responses sent in order, and exactly which
  connections are never freed; every event enters the handlers its flags ask for, an
  idle connection listens, every request can be served, no descriptor is lost, and
  connections reach their thread in order. `Reactor` holds the machine, `ReactorHeap` the heap
  operations, `ReactorOwners` the invariant, `ReactorIoSteps` and `ReactorSafety` its
  preservation, and the others the theorems.
- `Server*` — the connection protocol, the pool and all inboxes in step: a response
  is always on its way, the pipeline never locks up, the server comes to rest within
  a bounded number of steps, and then all work is done.
- `LockOrder` — the single lock operations behind the critical sections: mutual
  exclusion and no deadlock.

The code that works in place is modelled as classes proved against functions on
values: `Connections`, `IoThreads`, `LinkedQueues`, `IoThreadPool`, `ConnMap` and
`GlobalQueue`. `Responses` has the response text and an independent reader of
messages framed by Content-Length (section 6.3 of RFC 9112). `Basics` has optional
values and C strings, `Totals` sums over threads.

`dafny verify dfyconfig.toml` checks the whole project.

## What the proofs show about the code

Most of the protocol holds as intended. Where it does not, the code is modelled
as it is, a lemma gives a run on which it fails, and another the exact condition.

- After a handler returns, `io_thread_run` tests the connection again
  (`io_thread.c:185` and `:193`). If the handler closed it and held the last
  reference, this reads freed memory. `RecheckIsSafeIff` gives the condition,
  `RecheckCanReadFreedMemory` a run that does it: a client closes an idle connection.
  The read may answer anything. When it answers that the connection is open the run
  is `misled`, and `MisledRunCanFault` continues one to a second close of the freed
  object. The theorems are about states that are not misled, so in particular about
  every run that never tests a freed connection (`MisledTestedFreed`).
- `task_create` does not give its reference back when the payload cannot be
  allocated (`task_queue.c:130-132`): `ReferenceCanBeLost` reaches such a state, and
  `LostReferencePins` shows that the connection is never freed.
- `handle_read` ignores the result of `thread_pool_submit` (`io_thread.c:25`): a
  refused task and its connection are never freed (`TaskCanBeRefused`,
  `RefusedTaskPins`). A refusal needs the pool's shutdown flag
  (`NothingRefusedWhileUp`). The shipped server sets that flag only in
  `thread_pool_destroy`, after it has joined the I/O threads (`server.c:221-222`), so
  only another order of shutdown would meet it.
- The I/O thread takes one byte per edge (`io_thread.c:144`) however many were written,
  so surplus bytes stay in the wake-up pipe. A pipe that gives space back in pages, as
  Linux does, can then refuse a byte (`io_thread.c:428`) while no edge is pending, and
  the messages in the inbox, with their references, wait until another byte goes
  through. `MessageCanBeStranded` fills a pipe of any size and strands a message;
  `StrandsIffPaged` shows that pages of more than one byte are exactly what it takes;
  and `NoMessageIsStranded` gives the condition for every reachable state.
- These three are the only leaks: in a server at rest a connection was freed exactly
  when it was closed, no chunk read from it met either of the first two failures, and
  no message for it lies in an inbox (`FreedIffNothingLeaked`, `SettledServerFrees`).
- When the message for a response cannot be allocated (`io_thread.c:405-406`) and
  nothing else covers it, the response is never announced (`ResponseCanBeStranded`),
  until the next response for the connection; no other response is without a cover
  (`NoResponseIsStranded`).
- The declared length of a response is that of the untruncated body, so an echo of
  more than 1017 characters is framed wrongly (`FramedIffFits`, `LongEchoIsMisframed`).
- After a failed hand-off the descriptor is closed twice (`connection.c:55`, then
  `server.c:103`). Because one thread accepts and it does both, nothing else can have
  reused the number in between (`KeepReclose`).
- `event_loop_del` on the close paths never finds anything: closing the descriptor
  already removed the registration (`KeepUnregister`).

## Assumptions

- A critical section is one step of the first three machines; `LockOrder` splits them.
- Installing a response (`thread_pool.c:29-34`) is one step and so is one
  `handle_write` call; the code takes no lock around the write fields.
- One wait reports a connection at most once, and only a registered one: readable or
  writable only as its registration then asks, failed or hung up at any time. Closing a
  descriptor removes its registrations. Each byte written to the wake-up pipe raises
  an edge, and one wait reports that pipe at most once. The pipe takes bytes until it
  is full, and refuses one only while fewer than `page` of its `capacity` bytes are
  unused; both numbers are arbitrary.
- The pool's and the I/O threads' plain flags are read and written atomically.
- Mutexes are locked on objects that are still allocated; `NothingDangles` shows this
  for every access but the test described above.
- System calls, allocation and the scheduler are choices of the environment: each
  action that can fail has a failing variant, and nothing is assumed about how often.
- The pool's teardown ends the pool: nothing is claimed about a thread that is still
  in `task_queue_push` then. `server.c:221-222` joins the I/O threads first.
- Bytes are Dafny characters. Counters and reference counts are unbounded integers.
- Histories (`accepted`, `popped`, `chunks`, `wires`, `stale`, `stranded`, `roused`, `unheard`, `names`, …)
  and the owner records of a slot are auxiliary: no step decides anything by them.

## Model

| member | source | states |
|---|---|---|
| `ServerProgress.ServerSettles` | advanced-reactor-server/io_thread.c:110-205 | without new connections, socket events, data, spurious wake-ups and shutdown, no interleaving of the whole server has more steps than a number given by the state |
| `ServerProgress.OwnStepWorks` | advanced-reactor-server/thread_pool.c:46-82 | every step that a thread takes on its own makes that number smaller |
| `ServerTheorems.SettledServer` | advanced-reactor-server/io_thread.c:103-209 | when no thread of a running server can move by itself, every thread waits, the queue is empty, every task the queue accepted was completed and destroyed, and an inbox is empty if and only if no wake-up byte was refused for it |
| `ServerTheorems.SettledResponses` | advanced-reactor-server/io_thread.c:157-161 | in such a server every response with unsent bytes is watched for writability, unless a failed message left it without a cover or its message lies in an inbox whose byte was refused |
| `ServerTheorems.SettledServerFrees` | advanced-reactor-server/connection.c:44-62 | when no hand-off is under way either, a connection was freed if and only if it was closed, the payload of no task for it failed to be allocated, and no message for it lies in an inbox whose byte was refused |
| `ServerTheorems.ResponseIsOnItsWay` | advanced-reactor-server/thread_pool.c:28-39 | unsent bytes of an open connection are watched for writability, about to be announced by a worker, acted upon, or announced by a message whose I/O thread drains, has an edge pending or will get its byte; the exceptions are a failed message that left no cover, and then none of these holds, and a message in an inbox whose byte was refused |
| `ServerTheorems.FullServerMoves` | advanced-reactor-server/task_queue.c:50-52 | while the queue is full some worker of the whole server can take a step, whatever the I/O threads do |
| `ServerTheorems.BusyWorkerMoves` | advanced-reactor-server/thread_pool.c:53-81 | a worker with a task in its hands always has a step to take |
| `ServerLinks.ServerProjects` | advanced-reactor-server/io_thread.c:6-209 | every run of the server is a run of the connection protocol, of the pool and of each inbox, which agree task by task about the queue and what it accepted, message by message about the inboxes, and about where each thread is |
| `ServerLinks.LinkStep` | advanced-reactor-server/io_thread.c:6-209 | every step keeps that agreement |
| `ReactorTheorems.RefCountsAreExact` | advanced-reactor-server/connection.c:35-62 | in every reachable state that is not misled a live connection's count is its base reference plus the tasks and messages that name it plus the references lost in failed allocations, each of them is where the records say, and an unclosed connection has its base reference |
| `ReactorTheorems.NothingDangles` | advanced-reactor-server/io_thread.c:103-209 | no run that is not misled dereferences a freed task, message or connection, except in the validity test after a handler, and every queue entry, task, message, pipe entry, pending event, registration and program point that goes on to use a connection names an allocated object |
| `ReactorTheorems.FreedExactlyOnce` | advanced-reactor-server/connection.c:44-62 | a connection is gone if and only if its base reference was released and nothing holds it; it was then freed once and its descriptor closed once; while it is open its descriptor was never closed |
| `ReactorTheorems.FreedForGood` | advanced-reactor-server/connection.c:52-61 | whatever happens next, a freed connection never comes back and is never freed again |
| `ReactorTheorems.RecheckIsSafeIff` | advanced-reactor-server/io_thread.c:182-196 | the validity test after a handler reads allocated memory if and only if the connection is still registered or something else holds it, and misleads if and only if it reads freed memory as open |
| `ReactorTheorems.ClosedIsTested` | advanced-reactor-server/io_thread.c:182-196 | a read or write handler that closed its connection is followed by that test, which reads freed memory if and only if the handler dropped the last reference |
| `ReactorTheorems.RecheckCanReadFreedMemory` | advanced-reactor-server/io_thread.c:31-38 | a reachable state in which that test read a freed connection, for either answer |
| `ReactorTheorems.MisledRunCanFault` | advanced-reactor-server/io_thread.c:198-203 | a run in which the freed memory read as open, and the hangup branch then used the freed connection |
| `ReactorTheorems.MisledTestedFreed` | advanced-reactor-server/io_thread.c:184-196 | no run is misled before it tested a freed connection |
| `ReactorLeaks.FreedIffNothingLeaked` | advanced-reactor-server/task_queue.c:121-133 | in a quiescent server a connection was freed if and only if it was closed, no chunk read from it lacked its payload or was refused, and no message for it lies in an inbox |
| `ReactorLeaks.LeaksAreCounted` | advanced-reactor-server/io_thread.c:23-28 | in every reachable state the lost references of a connection are its chunks without payload, and its leaked tasks are its refused chunks |
| `ReactorLeaks.LostReferencePins` | advanced-reactor-server/task_queue.c:121-133 | once a payload allocation failed for a connection, it is live in every later state |
| `ReactorLeaks.ReferenceCanBeLost` | advanced-reactor-server/task_queue.c:125-133 | a reachable state with a lost reference |
| `ReactorLeaks.RefusedTaskPins` | advanced-reactor-server/io_thread.c:23-28 | a task refused by the pool is never destroyed and its connection is live in every later state |
| `ReactorLeaks.TaskCanBeRefused` | advanced-reactor-server/thread_pool.c:152-156 | a reachable state with a refused and leaked task |
| `ReactorLeaks.NothingRefusedWhileUp` | advanced-reactor-server/thread_pool.c:152-156 | until the pool's flag is set no task is refused and none is leaked |
| `ReactorSafety.KeepStep` | advanced-reactor-server/io_thread.c:6-209 | every step of every thread that does not mislead keeps the global invariant of owners, counts, descriptors and registrations |
| `ReactorSafety.ReachableInv` | advanced-reactor-server/io_thread.c:384-429 | the invariant holds in every reachable state that is not misled |
| `ReactorSafety.KeepReclose` | advanced-reactor-server/server.c:92-104 | the second close of a descriptor after a failed hand-off closes and unregisters nothing that belongs to a connection |
| `ReactorSafety.KeepSend` | advanced-reactor-server/io_thread.c:401-429 | sending a message keeps the invariant: the reference is taken before the I/O thread can see the message |
| `ReactorSafety.KeepFinish` | advanced-reactor-server/task_queue.c:142-154 | destroying a task keeps the invariant, also when it frees the connection |
| `ReactorIoSteps.KeepIo` | advanced-reactor-server/io_thread.c:110-205 | every step of an I/O thread that does not mislead keeps the invariant |
| `ReactorIoSteps.KeepUnregister` | advanced-reactor-server/io_thread.c:33-37 | removing the saved descriptor from the event loop after it was closed changes no registration |
| `ReactorIoSteps.KeepDropMsg` | advanced-reactor-server/io_thread.c:156-166 | releasing a message's connection after the queue lock was dropped keeps the invariant |
| `ReactorStranded.NoResponseIsStranded` | advanced-reactor-server/io_thread.c:56-100 | an open connection with unsent bytes is watched for writability, has a message queued or being handled, or has a worker about to send one, if and only if it was not left without all of these by a message that could not be allocated |
| `ReactorStranded.StrandedStep` | advanced-reactor-server/thread_pool.c:28-39 | every step of every thread keeps the recorded connections without a cover |
| `ReactorResponses.CoverStep` | advanced-reactor-server/thread_pool.c:28-39 | every step of every thread keeps each connection with unsent bytes covered or recorded |
| `ReactorStranded.ResponseCanBeStranded` | advanced-reactor-server/io_thread.c:404-406 | a reachable state with unsent bytes that nothing covers, after a message could not be allocated |
| `ReactorWires.ClientIsSentPrefix` | advanced-reactor-server/io_thread.c:56-100 | under every interleaving a client was sent a prefix of the response last installed, all of it exactly when the positions were reset, and the write fields are what installs and write events alone would have made them |
| `ReactorDispatch.ReachableEvent` | advanced-reactor-server/io_thread.c:172-203 | from taking up an event to the next one, whatever the other threads do, an I/O thread enters the read handler, the write handler and the error branch for that connection exactly as the event's flags say and in that order, unless one of them closed the connection; the error branch always does |
| `ReactorDispatch.EventsAreTakenUp` | advanced-reactor-server/io_thread.c:110-205 | over any run the events an I/O thread takes up, with those of its last wait still to come, are exactly the events its waits reported, in order: none is skipped |
| `ReactorDispatch.ServeStep` | advanced-reactor-server/io_thread.c:182-203 | every step keeps a thread on its event with the handlers entered so far, or ends the event with all of them entered or the connection closed |
| `ReactorDispatch.HandlersClose` | advanced-reactor-server/io_thread.c:31-51 | the end of the stream, a read error and a hangup close the connection and its open descriptor and leave it no registration |
| `ReactorDispatch.WriteEventSends` | advanced-reactor-server/io_thread.c:64-78 | in every reachable state a write event sends the client the next bytes of the installed response, as many as the answers before the first that took nothing accepted, or all |
| `ReactorDispatch.WriteEventCloses` | advanced-reactor-server/io_thread.c:78-90 | it closes the connection if and only if bytes are left and that answer is an error, or a write of nothing after one |
| `ReactorDispatch.WorkerDecides` | advanced-reactor-server/thread_pool.c:36-58 | a worker processes a task, and announces its response, if and only if the connection is not closing at that moment |
| `ReactorDispatch.MessageSwitches` | advanced-reactor-server/io_thread.c:156-161 | a message puts its registered connection in write mode and changes nothing else, and does nothing when the connection is closing |
| `ReactorInterest.WriteSwitches` | advanced-reactor-server/io_thread.c:56-100 | a write event that leaves nothing to send puts the connection back to reading, one that leaves bytes changes no registration, one that closes leaves none |
| `ReactorInterest.IdleConnectionListens` | advanced-reactor-server/io_thread.c:93-99 | in every reachable state a registered connection with nothing to send is watched for data, or for writability because a message was handled since its last write event, and then its next write event puts it back to reading |
| `ReactorInterest.ArmStep` | advanced-reactor-server/io_thread.c:157-161 | every step of every thread keeps write interest only with bytes to send or such a message |
| `ReactorEcho.WritableIsSent` | advanced-reactor-server/io_thread.c:190-196 | from every reachable state with a writable event to take up, a kernel that takes everything gets the whole installed response in at most four steps of that thread, and the connection is back to reading |
| `ReactorEcho.EchoIsServed` | advanced-reactor-server/io_thread.c:10-99 | from every reachable state with an idle connection, and for any 1 to 4096 bytes, there is a run of its I/O thread and a free worker that reads them, sends exactly the formatted echo and leaves the connection idle |
| `ReactorEcho.EchoesAreServed` | advanced-reactor-server/io_thread.c:110-205 | so any number of requests can be served on one connection |
| `ReactorEcho.IdleIsReachable` | advanced-reactor-server/io_thread.c:117-132 | a reachable state with an idle connection |
| `ReactorHandOff.DescriptorsAreExact` | advanced-reactor-server/server.c:92-104 | in every reachable state at which the accept thread is not about to close one, the open descriptors are exactly those of the connections and the one just accepted |
| `ReactorHandOff.FdStep` | advanced-reactor-server/connection.c:44-90 | every step keeps an owner for every open descriptor |
| `ReactorHandOff.HandedInOrder` | advanced-reactor-server/io_thread.c:117-139 | while an I/O thread has a connection, no earlier connection for that thread is still being handed over |
| `ReactorHandOff.OrderStep` | advanced-reactor-server/io_thread.c:384-398 | every step keeps the pipes in order of creation |
| `ReactorWires.WireStep` | advanced-reactor-server/thread_pool.c:28-34 | seen at one connection every step of the server is an install, a write event or nothing |
| `ReactorFlow.BytesFlowInOrder` | advanced-reactor-server/io_thread.c:10-30 | the payloads of a connection's tasks in push order, with the one being submitted, are the chunks read from it that were passed on; they are all the bytes read if and only if no chunk was lost |
| `ReactorFlow.BytesReachWorkers` | advanced-reactor-server/task_queue.c:59-105 | the k-th queued task carries the bytes and the connection of the k-th accepted entry that was not popped, and a worker's task those of a popped one |
| `ReactorFlow.ReadReceives` | advanced-reactor-server/io_thread.c:13-30 | a chunk read in a reachable state is counted, logged with its fate, and becomes a task for its connection exactly when both allocations succeed |
| `ReactorFlow.BytesAreCounted` | advanced-reactor-server/io_thread.c:14-17 | an I/O thread's byte count is the total over its connections |
| `WorkerPoolWakeups.NoWakeupIsLost` | advanced-reactor-server/task_queue.c:44-110 | with single signals, barging and spurious wake-ups: before shutdown, while a consumer sleeps the queued tasks are at most the woken consumers, and while a producer sleeps the free places are at most the woken producers |
| `WorkerPoolWakeups.WakeupsStep` | advanced-reactor-server/task_queue.c:44-110 | every step keeps both bounds |
| `WorkerPoolConservation.TasksAreConserved` | advanced-reactor-server/thread_pool.c:43-85 | tasks are popped in the order accepted and within the bound; accepted tasks are completed, in hand or queued; each task is offered, refused or accepted once, and each accepted one is queued, held or destroyed, once |
| `WorkerPoolConservation.TeardownDestroysEachTaskOnce` | advanced-reactor-server/thread_pool.c:128-150 | once the workers were joined and the queue destroyed, each accepted task was destroyed exactly once and a refused one never |
| `WorkerPoolProgress.FullQueueHasAWorkerToMove` | advanced-reactor-server/task_queue.c:50-52 | while the queue is full, some worker can take a step |
| `WorkerPoolProgress.RunningPoolSettles` | advanced-reactor-server/thread_pool.c:43-85 | without new submissions, spurious wake-ups and shutdown, every interleaving has at most as many steps as the load of its first state |
| `WorkerPoolProgress.SettledPoolIsDone` | advanced-reactor-server/task_queue.c:44-110 | when no thread of a running pool can move, the queue is empty, no producer is blocked and every accepted task was completed and destroyed once |
| `WorkerPoolProgress.ShutdownTerminates` | advanced-reactor-server/thread_pool.c:128-140 | once the queue is closed no worker sleeps, all workers together take at most four steps for each of them, and one that has not exited can move: every join returns |
| `WorkerPoolProgress.AtMostOneMoreTask` | advanced-reactor-server/thread_pool.c:46-51 | once the pool flag is set each worker completes at most one more task |
| `WorkerPoolProgress.ReachableIsOrderly` | advanced-reactor-server/task_queue.c:156-164 | workers exit only after the flag, get no task only after the queue was closed, and nobody sleeps on a closed queue |
| `Mailbox.NoMessageIsStranded` | advanced-reactor-server/io_thread.c:142-170 | messages wait with no edge pending, no drain in progress and no sender about to write if and only if a byte was refused while they waited and nothing happened since, which takes a pipe with less than a page unused and pages of more than one byte; a notified thread finds its byte; messages are taken in the order sent |
| `Mailbox.InvStep` | advanced-reactor-server/io_thread.c:412-428 | every step keeps this, together with: a full pipe has a notification outstanding, and every notification its byte |
| `Mailbox.DeliverySettles` | advanced-reactor-server/io_thread.c:147-168 | without new messages every interleaving has at most as many steps as the load of its first state |
| `Mailbox.SettledBoxIsEmpty` | advanced-reactor-server/io_thread.c:147-168 | when nothing but a new message can cause a step, the thread waits, and every message sent was handled, in order, if and only if no byte was refused since |
| `Mailbox.MessageCanBeStranded` | advanced-reactor-server/io_thread.c:142-145 | for every pipe with pages of more than one byte, a run that fills it with surplus bytes and strands a message for good |
| `Mailbox.StrandsIffPaged` | advanced-reactor-server/io_thread.c:426-428 | a pipe of any size can strand a message if and only if its pages have more than one byte |
| `LockOrder.ScriptsAreNested` | advanced-reactor-server/io_thread.c:412-424 | every locking function takes a second mutex only on a connection under one other mutex, and sleeps with none, however often its loops turn |
| `LockOrder.ScriptTakes` | advanced-reactor-server/task_queue.c:22-110 | which mutexes each locking function takes, and how often, for any number of waits, messages and queued tasks |
| `LockOrder.SendHoldsBoth` | advanced-reactor-server/io_thread.c:412-424 | a message's reference is taken under both the inbox's and the connection's mutex |
| `LockOrder.LocksExclude` | advanced-reactor-server/task_queue.c:47-54 | no mutex is ever held by two threads, and a thread asleep on a condition holds none |
| `LockOrder.SomeoneGoesOn` | advanced-reactor-server/task_queue.c:22-35 | as long as a thread is inside a locking function and not asleep, some such thread can go on |
| `LockOrder.SectionsEnd` | advanced-reactor-server/task_queue.c:44-76 | a run of lock operations is no longer than the operations left in the functions that were entered |
| `Connections.DescriptorIsClosedOnce` | advanced-reactor-server/connection.c:44-90 | over any sequence of acquires, releases and repeated marks the descriptor is closed at most once, exactly once by the time the object is freed, and it is freed exactly when releases outnumber acquires by one |
| `Connections.LifeKeeps` | advanced-reactor-server/connection.c:35-62 | the count is the initial one plus acquires minus releases, and the object is freed exactly when it is used up |
| `Connections.NewConnection` | advanced-reactor-server/connection.c:5-32 | there is no object exactly when the allocation or the mutex fails; a new one is open, has one reference and nothing to send |
| `Connections.Connection.AcquireRef` | advanced-reactor-server/connection.c:35-41 | the object takes an acquire step of its life: one reference more and nothing else |
| `Connections.Connection.ReleaseRef` | advanced-reactor-server/connection.c:44-62 | the object takes a release step: one reference less; it reports and frees exactly on the last, and then closes a descriptor that is still open |
| `Connections.Connection.IsOpen` | advanced-reactor-server/connection.c:65-73 | valid means neither closing nor closed |
| `Connections.Connection.MarkClosing` | advanced-reactor-server/connection.c:76-90 | the object takes a mark step: it is closing, and only the first mark closes the descriptor |
| `Connections.Connection.Install` | advanced-reactor-server/thread_pool.c:21-34 | the write buffer holds exactly the formatted response, at position zero, within its bounds |
| `IoThreads.ResponseIsSentInOrder` | advanced-reactor-server/io_thread.c:64-99 | over any installs and write events with any partial writes the client has a prefix of the installed response, all of it exactly when the positions were reset, and positions stay in bounds |
| `IoThreads.Transmit` | advanced-reactor-server/io_thread.c:64-91 | the position only grows, stays within the response, and reaches its end exactly when the loop finishes |
| `IoThreads.TransmitLaw` | advanced-reactor-server/io_thread.c:64-91 | with k the first answer that took nothing: the position is the old one plus what the answers before k took, at most the end; when bytes are left the connection breaks if and only if answer k is an error or a write of nothing after one, and otherwise waits, also without an answer |
| `IoThreads.ReadLoopLaw` | advanced-reactor-server/io_thread.c:10-52 | if the first k answers are non-empty data and the next is not, exactly those k are chunks, and the connection is closed if and only if there is a next answer and it is not would-block |
| `IoThreads.IoThread.HandleWrite` | advanced-reactor-server/io_thread.c:56-100 | the write fields and the bytes sent move as one write event of the connection's write side; finished goes back to read interest; an error, or a write of nothing after another error, closes the descriptor and drops one reference |
| `IoThreads.IoThread.ReadChunks` | advanced-reactor-server/io_thread.c:10-30 | every chunk is counted, takes one reference unless its task could not be allocated, and becomes a task when it was passed on; exactly the non-empty reads before the first other answer are chunks |
| `IoThreads.IoThread.HandleRead` | advanced-reactor-server/io_thread.c:6-53 | exactly the non-empty reads before the end of the stream, an error or would-block are submitted, whatever becomes of them; exactly the first two close the connection, its descriptor once, and drop one reference |
| `IoThreads.IoThread.SendOut` | advanced-reactor-server/io_thread.c:64-91 | exactly the bytes between the two positions are sent and counted, and position and outcome are those of `Transmit` |
| `IoThreads.PassedIffAllPassed` | advanced-reactor-server/io_thread.c:23-28 | what was passed on is what arrived if and only if every chunk was passed on |
| `IoThreads.ChunksEnd` | advanced-reactor-server/io_thread.c:31-51 | whether the connection is closed is decided by the one answer after the chunks |
| `IoThreadPool.Pool.GetThread` | advanced-reactor-server/io_thread.c:372-381 | the k-th pick, by whichever caller, is thread k mod n; no thread at all gives none |
| `IoThreadPool.PickedIs` | advanced-reactor-server/io_thread.c:376-377 | how many of the picks handed out chose thread j |
| `IoThreadPool.PicksAreFair` | advanced-reactor-server/io_thread.c:372-381 | however many threads a pool has handed out, the totals of two threads differ by at most one |
| `Responses.StreamRoundTrip` | advanced-reactor-server/thread_pool.c:12-26 | any concatenation of responses to payloads of at most 1017 characters before their first NUL is read back, by declared lengths, as exactly the echoed bodies |
| `Responses.FramedIffFits` | advanced-reactor-server/thread_pool.c:21-26 | a response can be read back if and only if the echoed text has at most 1017 characters, which is when the declared length is that of the body |
| `Responses.LongEchoIsMisframed` | advanced-reactor-server/thread_pool.c:21-22 | a payload of 1018 characters gives a response that cannot be read back |
| `Responses.ResponseText` | advanced-reactor-server/thread_pool.c:12-26 | the response to any payload: its header lines, a decimal length that is the uncut body's, and the longest beginning within 1023 characters of "Echo: " and the payload up to its first NUL |
| `Responses.FormatFits` | advanced-reactor-server/thread_pool.c:24-29 | every response to one read has at most 1114 bytes, so it is always installed |
| `Responses.DecimalRoundTrip` | advanced-reactor-server/thread_pool.c:15 | a printed length is read back |
| `LinkedQueues.LinkedQueue.Append` | advanced-reactor-server/io_thread.c:418-423 | the list stays one chain with its tail null exactly when its head is, and the contents grow at the end |
| `LinkedQueues.LinkedQueue.TakeFirst` | advanced-reactor-server/io_thread.c:149-153 | the first element leaves and the rest stays in order |
| `LinkedQueues.NewTaskQueue` | advanced-reactor-server/task_queue.c:5-20 | there is no queue exactly when the allocation fails; a new one is empty and not shut down |
| `LinkedQueues.TaskQueue.TryPush` | advanced-reactor-server/task_queue.c:44-76 | the push waits exactly on a full open queue, refuses exactly on a closed one and otherwise appends, as the pool's state machine says; the size stays the list's length and within the bound, and exactly an append signals that the queue is not empty |
| `LinkedQueues.TaskQueue.TryPop` | advanced-reactor-server/task_queue.c:78-110 | the pop waits, returns nothing or takes the first task as the state machine says, and exactly a taken task signals that the queue is not full |
| `LinkedQueues.TaskQueue.Shutdown` | advanced-reactor-server/task_queue.c:156-164 | the queue is closed, keeps its contents, and broadcasts on both conditions |
| `LinkedQueues.TaskQueue.DestroyAll` | advanced-reactor-server/task_queue.c:22-42 | every queued task is destroyed once, in order |
| `ConnMap.ListRefinesMap` | linux/reactor-server/conn_map.c:10-56 | over any history of sets and removes descriptors stay unique and the list stands for the map that the same operations build |
| `ConnMap.DropRemovesKey` | linux/reactor-server/conn_map.c:40-56 | unlinking the first match removes the key and leaves every other binding |
| `ConnMap.DropIsEnoughIff` | linux/reactor-server/conn_map.c:43-52 | in an arbitrary list one removal takes the key away if and only if it occurs at most once |
| `ConnMap.LookupIsMapLookup` | linux/reactor-server/conn_map.c:29-38 | the first match is the map's value, and there is none exactly when the key is absent |
| `ConnMap.Map.constructor` | linux/reactor-server/conn_map.c:6-8 | a new map is empty |
| `ConnMap.Map.Search` | linux/reactor-server/conn_map.c:41-55 | the loop finds the first node for a descriptor and the node before it |
| `ConnMap.Map.Set` | linux/reactor-server/conn_map.c:10-27 | the linked list stays valid and its map is updated at one key |
| `ConnMap.Map.Overwrite` | linux/reactor-server/conn_map.c:13-17 | one node's text is replaced and the chain stays |
| `ConnMap.Map.Prepend` | linux/reactor-server/conn_map.c:22-26 | a new node goes in front of the chain |
| `ConnMap.Map.Get` | linux/reactor-server/conn_map.c:29-38 | the value of the first match, or none |
| `ConnMap.Map.Unlink` | linux/reactor-server/conn_map.c:44-48 | one node leaves the chain, whether or not it is the first |
| `ConnMap.Map.Remove` | linux/reactor-server/conn_map.c:40-56 | the linked list stays valid and its map loses exactly that key |
| `GlobalQueue.HistoryIsABag` | linux/reactor-server/global_queue.c:21-60 | over any history what was accepted is what was handed out plus what waits, and every valid slot lies below the peak occupancy |
| `GlobalQueue.AddedBag` | linux/reactor-server/global_queue.c:25-40 | adding fails exactly when all slots are valid and otherwise adds one request and nothing else |
| `GlobalQueue.TakenBag` | linux/reactor-server/global_queue.c:47-59 | taking fails exactly when no slot is valid and otherwise removes one request and nothing else |
| `GlobalQueue.TextSurvives` | linux/reactor-server/global_queue.c:28-29 | the text comes back up to its first NUL or its first 4095 characters, whichever is shorter, so a text without NUL of that length comes back intact |
| `GlobalQueue.Queue.constructor` | linux/reactor-server/global_queue.c:12-19 | a new array is an empty bag of 1024 slots |
| `GlobalQueue.Queue.AddTask` | linux/reactor-server/global_queue.c:21-41 | the array changes as `Added` says and the result tells whether there was room |
| `GlobalQueue.Queue.GetTask` | linux/reactor-server/global_queue.c:43-60 | the array changes as `Taken` says and the request handed out is the one that left |

## Left out

- The epoll and kqueue backends, `event_loop.c` and `epoll_wrapper.c`: only an interest set and an edge flag are modelled; kqueue's separate read and write events for one descriptor are not.
- `server.c` and the two `main.c` files, apart from the accept thread's hand-off: socket setup, signals and options. The queue bound and the thread counts are arbitrary; progress needs at least one worker and a positive bound, which `main.c` and `server.c` ensure.
- Teardown across the two pools (`server.c:220-222`): it frees I/O threads while workers may still hold connections that point to them, so the connection theorems are about the running server. The worker pool's own teardown is modelled.
- Failure paths while pools and I/O threads are being created.
- `TASK_TYPE_CLOSE`, `TASK_TYPE_READ`, `TASK_TYPE_WRITE` and `IO_MSG_CLOSE_CONN`: nothing creates them.
- When a connection arrives through the hand-off pipe: one pointer is read per edge, so a connection can wait for the next one; the model lets the event come at any time. Their order is proved (`HandedInOrder`).
- One response per request: `write_buf` is a single slot and a later response replaces an unsent earlier one; the theorems are about the installed response.
- Two threads in the write fields at once: the code takes no lock there, and the model takes each access as one step.
- Which sleeper `pthread_cond_signal` wakes is arbitrary, and nothing is claimed about fairness between threads.
- Failing allocations in `conn_map.c`, which the code does not handle, and the pointer that `conn_map_get` returns into the node: the model returns the text.
- The event loop and the worker loop of `linux/reactor-server`, `linux/epoll` and `osx/kqueue`: demonstrations with little state.
- Timestamps, statistics other than the byte and task counters, logging, scripts, the test client and the performance report.
- ConnMap.Map.Search: is written once; `conn_map.c` repeats the loop in each of its three operations.
- LinkedQueues.LinkedQueue.TakeFirst: clears the link of the element it takes, as `task_queue_pop` does; the message loop leaves it and frees the message instead.
- LinkedQueues.TaskQueue.TryPush: is one pass through the mutex; the loop around it and the thread that the signal wakes are steps of `WorkerPool`.
- LinkedQueues.TaskQueue.TryPop: is one pass through the mutex; the loop around it and the thread that the signal wakes are steps of `WorkerPool`.
- LinkedQueues.TaskQueue.Shutdown: counts its two broadcasts; the threads they wake are in `WorkerPool.DoClose`.
- LinkedQueues.TaskQueue.DestroyAll: does not deallocate, since Dafny objects cannot be freed; it returns the tasks it would destroy, and the references they drop are in `Reactor.DestroyTask`.

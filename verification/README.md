# Hohnor, modelled and verified

Hohnor is a reactor library in the style of muduo: one event loop per thread over epoll, timers on
a timerfd, TCP connections with user-space buffers, a thread pool over a bounded blocking queue, and
a logging stream. This project states in Dafny what the parts with real invariants are for, and
proves it for every input, every run and every interleaving.

| file | what it models |
|---|---|
| `EventLoop.dfy` | the loop and the threads that queue functors or end it, one shared access per step; the methods of the loop |
| `IOHandler.dfy` | handlers, their callbacks and their registration with epoll |
| `BinaryHeap.dfy` | the array heap with a moving hole and a moved-from slot that must not be read |
| `Timer.dfy`, `TimerQueue.dfy` | timers as a state machine with callbacks acting at any moment; the handler and queue objects over the heap |
| `Options.dfy` | a value that may be absent |
| `CircularBuffer.dfy`, `BoundedBlockingQueue.dfy` | the ring buffer, and the monitor with two condition variables: sleepers, signalled threads and the lock are explicit |
| `ThreadPool.dfy`, `Counting.dfy` | the pool, composed on the queue's monitor step by step |
| `Buffer.dfy`, `TCPConnection.dfy`, `TCPConnector.dfy` | the byte buffer, the write path and the retrying connector |
| `Date.dfy`, `StringConverter.dfy`, `LogStream.dfy`, `CArithmetic.dfy` | Julian days, integer printing, and C++ division |

How the concurrent parts are written: a state, a datatype of steps, `Enabled` and `Apply`, and
`Execution`, `Run` or `Reaches` for whole runs. An invariant holds initially and is kept by every step;
the results about runs follow. Fields named as history (`accepted`, `taken`, `order`, `log`, `fates`, `calls`)
record what happened and are never read by the modelled code. The classes carry the same code in
imperative form, and each method is proved to do to the object what the specification does to the value.
What an operation does is also stated without its function: field by field for one step, and for whole
runs by the calls alone, such as the argument of the last `put`, the counts that `::write` returned, or
the last `enable()` and `disable()` of a handler.

Assumptions: times are whole microseconds, and the clock read by the code and the clock of the
timerfd agree; `loop()` runs on the thread that created the loop; other threads call `endLoop` only
once the loop has left `Ready`; there is one handler for a descriptor; a read of an atomic or plain
flag is one step; a callback is known by a number, and what it does is a script. What the kernel
returns (a partial count, an error, an event) is a parameter, so every legal answer is covered.

Where documentation and code differ, the code is modelled:

- `include/hohnor/net/TCPConnector.h:45` says that retries <= 0 means retrying for ever; in the code
  only a negative number does, and zero means no retry (`TCPConnector.FinalIffLimitReached`,
  `TCPConnector.FirstFailureFinalIffZero`).
- `setHighWaterMarkCallback` promises nothing about callbacks that write. The callback runs between
  the direct write and the append, so bytes it writes overtake the rest of the message that fired it,
  it may be called again with nothing drained, and a write-complete callback may be queued too early.
  Each of the three is modelled, shown by a run (`TCPConnection.FiresTwiceExample`,
  `TCPConnection.CompletesEarlyExample`) and characterised (`TCPConnection.OutputInOrderIff`,
  `TCPConnection.FiresAgainIff`, `TCPConnection.CompleteMeansAllTaken`).
- A handler disabled after `quit_` is set stays in the epoll set; `IOHandler.AgreementKept` says
  that this is the only way to lose the agreement.
- `include/hohnor/time/Date.h:23` gives years 1900 to 2500. The conversions are right on far more;
  `Date.DateRoundTrip`, `Date.JulianDayRoundTrip`, `Date.NoOverflowRange` and
  `Date.NumberNoOverflowRange` give the exact ranges.

## Model

| member | source | states |
|---|---|---|
| EventLoop.StepKeepsInv | src/core/EventLoop.cpp:97-187 | every step of the loop thread and of any other thread keeps: a pending functor or a set quit flag has a readable eventfd, a later swap or test, or a thread on its way to write; FIFO order; the iteration bound |
| EventLoop.NoLostWakeUp | src/core/EventLoop.cpp:172-187 | in every interleaving, whenever the loop polls with functors pending, the eventfd is readable or another thread that has pushed a functor has not yet written it; a thread that only ends the loop does not count |
| EventLoop.PromiseIsKept | src/core/EventLoop.cpp:172-234 | such a thread can always move, and its own next steps write the eventfd |
| EventLoop.ReadableUntilPollReturns | src/core/EventLoop.cpp:97-112 | while the loop polls on a readable eventfd, nothing but its own return from epoll_wait takes the value away |
| EventLoop.QuitIsPrompt | src/core/EventLoop.cpp:97-126 | once quit_ is set every loop step strictly decreases (phase, work left in it), and no other thread can raise it |
| EventLoop.AtMostOneMoreIteration | src/core/EventLoop.cpp:97-126 | at most one iteration begins after the one in which quit_ was set |
| EventLoop.QuitAtIsFixed | src/core/EventLoop.cpp:255-268 | quit_ stays set, and the iteration in which it was first set is remembered unchanged |
| EventLoop.QuitNeverBlocks | src/core/EventLoop.cpp:221-268 | after quit_ the loop is never stuck: it can move without any descriptor but the eventfd, or a named thread is about to write that one |
| EventLoop.FunctorOrder | src/core/EventLoop.cpp:114-125 | executed, then the rest of the batch, then pending, is accepted, in lock order, until cleanup; executed is a prefix of accepted for ever |
| EventLoop.SwapTakesAll | src/core/EventLoop.cpp:114-119 | the swap leaves nothing pending and completes the accepted order |
| EventLoop.PushAppends | src/core/EventLoop.cpp:179-182 | the push puts the argument of the call behind the pending functors and changes nothing else that is shared |
| EventLoop.AcceptsItsArgument | src/core/EventLoop.cpp:172-187 | in every run each accepted functor is the argument of the last call of queueInLoop by the thread that pushes it, and goes to the back |
| EventLoop.QuitIffEndLoop | src/core/EventLoop.cpp:255-268 | in every run quit_ is set iff endLoop has been called |
| EventLoop.LoopTestsQuit | src/core/EventLoop.cpp:97-126 | the loop goes on while quit_ is not set and ends at the first test after it is |
| EventLoop.EventReadsEventfd | src/core/EventLoop.cpp:236-245 | handleWakeUp leaves the eventfd at 0, and the callbacks of other descriptors leave it as it was |
| EventLoop.ReadableIffWritten | src/core/EventLoop.cpp:221-245 | in every run the eventfd is readable iff some wakeUp has written it since it was last read |
| EventLoop.LoopRunsInOrder | src/core/EventLoop.cpp:97-126 | the loop runs the iterations up to the first in which it is ended and no further; the functors it runs and those it leaves are all that were queued, in order |
| EventLoop.EventLoop.WakeUp | src/core/EventLoop.cpp:221-234 | adds one to the saturating eventfd counter, and nothing after End |
| EventLoop.EventLoop.QueueInLoop | src/core/EventLoop.cpp:172-187 | the call is exactly the protocol's check, push, decision and write, in that order; its argument is appended unless the loop has ended |
| EventLoop.EventLoop.RunInLoop | src/core/EventLoop.cpp:156-170 | on the loop thread the functor runs at once, also after End, and leaves what the functors it queues make of the state; otherwise it is queued, unless the loop has ended |
| EventLoop.EventLoop.EndLoop | src/core/EventLoop.cpp:255-268 | quit_ is set, and the call is exactly the protocol's setting of it and its wake-up; in Ready it runs the loop, which ends at once and cleans up |
| EventLoop.EventLoop.RunPendingFunctors | src/core/EventLoop.cpp:120-124 | a run of the state machine that executes exactly the swapped batch in order; what it queues stays pending with a readable eventfd; it ends the loop iff one of them does |
| EventLoop.EventLoop.RunLoop | src/core/EventLoop.cpp:97-153 | the while loop is a run of the state machine, from the test of quit_ to the end, with the specified functors, iteration count and final state |
| EventLoop.ReachedByExecution | src/core/EventLoop.cpp:97-153 | what such a run reaches from the initial state belongs to an execution, so every result about executions holds there |
| IOHandler.AgreementKept | src/core/IOHandler.cpp:76-172 | an operation keeps "in the epoll set iff Enabled, with mask events_" if and only if it does not disable an enabled handler after quit_ |
| IOHandler.CallIsLegal | src/core/EventLoop.cpp:279-297 | an operation makes at most one epoll_ctl call, adding only an absent descriptor and changing or removing only a present one |
| IOHandler.RegistrationAgrees | src/core/IOHandler.cpp:76-277 | before quit_, any sequence of operations over any handlers keeps the agreement and no epoll_ctl call ever fails |
| IOHandler.EnableRegisters | src/core/IOHandler.cpp:76-172 | from any agreeing state enable() leaves the handler Enabled with the events and callbacks it had, the descriptor in epoll with exactly those events, and every other handler and descriptor as before |
| IOHandler.DisableUnregisters | src/core/IOHandler.cpp:148-166 | disable() leaves the handler Disabled without callbacks; before quit_ its descriptor is gone from epoll, after quit_ epoll is not called; nothing else changes |
| IOHandler.SetEventChangesOneBit | src/core/IOHandler.cpp:211-277 | the read, write, close and error setters switch exactly EPOLLIN, EPOLLOUT, EPOLLRDHUP and EPOLLERR; epoll has the new mask iff the handler is enabled |
| IOHandler.SetCallbackChangesOneSlot | src/core/IOHandler.cpp:174-209 | exactly that callback is stored or taken away, and exactly its own event bit is switched with it |
| IOHandler.HandlerByHistory | src/core/IOHandler.cpp:76-277 | after any sequence of calls on any handlers, status, each event bit and each callback of a handler are what the last call that speaks of it said |
| IOHandler.EpollFollowsHistory | src/core/IOHandler.cpp:76-277 | before quit_ epoll watches a descriptor iff its last enable() or disable() was an enable(), and then for exactly the events whose last setters switched them on |
| IOHandler.DisableEndsDispatch | src/core/IOHandler.cpp:89-166 | a callback that disables its handler, and sets no callback after that, is the last one of the dispatch |
| IOHandler.DispatchKeepsAgreement | src/core/IOHandler.cpp:89-126 | a dispatch keeps the agreement, whatever its callbacks do to any handler |
| IOHandler.RunsTheTriggered | src/core/IOHandler.cpp:89-126 | an enabled handler whose callbacks leave its own callbacks alone runs, in this order and if set: close on HUP without IN, error on ERR, read on IN, PRI or RDHUP, write on OUT |
| IOHandler.DisabledRunsNothing | src/core/IOHandler.cpp:89-96 | a handler that is not enabled runs no callback |
| IOHandler.OperationsAreLocal | src/core/IOHandler.cpp:128-277 | an operation on one handler leaves all others alone, so handler objects and the world of all handlers agree |
| IOHandler.Loop.EpollCtl | src/core/EventLoop.cpp:279-297 | add, modify and remove change the set only when legal |
| IOHandler.IOHandler.UpdateInLoop | src/core/IOHandler.cpp:76-87 | status, epoll call and callback cleanup happen as specified |
| IOHandler.IOHandler.Update | src/core/IOHandler.cpp:128-144 | disabling a Created or Disabled handler makes no call |
| IOHandler.IOHandler.Enable | src/core/IOHandler.cpp:168-172 | the object is Enabled with its events and callbacks kept, its descriptor is in epoll with that mask, and all of it is the operation of the specification |
| IOHandler.IOHandler.Disable | src/core/IOHandler.cpp:148-166 | callbacks go first, the object is Disabled and its descriptor leaves epoll; after quit_ epoll is not told |
| IOHandler.IOHandler.SetEvent | src/core/IOHandler.cpp:211-277 | changes one bit, and epoll only while enabled |
| IOHandler.IOHandler.SetCallback | src/core/IOHandler.cpp:174-209 | stores or clears one callback and switches its event with it |
| IOHandler.Handlers.Perform | src/core/IOHandler.cpp:128-277 | an operation on one of many handler objects, new ones included, does to all of them and to epoll what the specification says |
| IOHandler.Handlers.Dispatch | src/core/IOHandler.cpp:89-126 | runs close, error, read, write in that order, each only if its bits are set and its callback is still there at that moment, with callbacks that work on any handlers |
| BinaryHeap.UpStep | include/hohnor/common/BinaryHeap.h:29-42 | moving a parent into the hole leaves at most the hole's new place out of order |
| BinaryHeap.DownStep | include/hohnor/common/BinaryHeap.h:66-77 | moving the chosen child into the hole leaves at most the hole's new children out of order |
| BinaryHeap.TopIsLeast | include/hohnor/common/BinaryHeap.h:87-87 | for any strict weak ordering, no element of a heap is below its top |
| BinaryHeap.MoveHoleKeeps | include/hohnor/common/BinaryHeap.h:38-38 | a move of the hole is a permutation |
| BinaryHeap.BinaryHeap.PercolateUp | include/hohnor/common/BinaryHeap.h:29-42 | repairs the heap with the moving hole, keeps the multiset, and never compares the moved-from slot |
| BinaryHeap.BinaryHeap.ProperParent | include/hohnor/common/BinaryHeap.h:43-65 | picks the place whose element no valid child is below |
| BinaryHeap.BinaryHeap.PercolateDown | include/hohnor/common/BinaryHeap.h:66-77 | repairs the heap from the root, keeps the multiset, and never compares the moved-from slot |
| BinaryHeap.BinaryHeap.Insert | include/hohnor/common/BinaryHeap.h:99-110 | heap order is kept and exactly the item is added |
| BinaryHeap.BinaryHeap.PopTop | include/hohnor/common/BinaryHeap.h:88-97 | returns an element with none below it and removes exactly that one |
| BinaryHeap.BinaryHeap.Drain | src/core/Timer.cpp:142-148 | popping until empty yields a sorted permutation |
| Timer.ResetIsExact | src/core/Timer.cpp:21-57 | the timespec is well formed, never zero (which would disarm), and amounts to exactly max(expiration, now + 100 microseconds) |
| Timer.KeysFixedInHeap | src/core/Timer.cpp:81-129 | no step changes the key of a handler that is in the heap |
| Timer.ActOnTimer | src/core/Timer.cpp:81-117 | disable and updateCallback, direct or queued, never change an expiration and never undo a disable |
| Timer.StepKeepsInv | src/core/Timer.cpp:69-205 | every insertion, pop, reload, re-arming and user action keeps placement, timerfd cover, drain order and history |
| Timer.InOnePlace | src/core/Timer.cpp:155-205 | in every run a handler is in exactly one of heap, awaiting insertion, being run, or retired, and retired ones are disabled |
| Timer.RetiredForever | src/core/Timer.cpp:155-185 | a retired handler never comes back |
| Timer.NoMissedTimer | src/core/Timer.cpp:46-57 | in every run, outside a drain, the timerfd is armed for every handler in the heap, no later than max(its expiration, arming time + 100), and readable from then on |
| Timer.DrainTakesTheDue | src/core/Timer.cpp:155-185 | whatever callbacks and other threads do meanwhile, one handleRead pops exactly the handlers due when it began, in strictly increasing (expiration, sequence) order, and leaves exactly the others |
| Timer.DrainProgress | src/core/Timer.cpp:167-184 | a drain is never stuck, and every pop shrinks the heap |
| Timer.NoCallbackAfterDisable | src/core/Timer.cpp:69-100 | in every run, once a handler is disabled no callback of it is invoked again: self-disable, disable while awaiting re-insertion, and disable by an earlier callback of the same drain; SilentAfterDisable starts from the call |
| Timer.SilentAfterDisable | src/core/Timer.cpp:69-100 | from any call of disable(), direct or queued, no run of any length ever invokes a callback of that handler again, and the handler stays disabled |
| Timer.DisableSilences | src/core/Timer.cpp:81-100 | the call sets the flag, ends the repetition and drops the callback, and changes nothing else |
| Timer.UpdateSetsCallback | src/core/Timer.cpp:102-117 | updateCallback replaces the callback and nothing else; on a disabled handler the direct call does nothing |
| Timer.AddMakesHandler | src/core/Timer.cpp:187-194 | addTimer makes an enabled handler with its callback, time and interval, last in the line for insertion |
| Timer.PopInvokes | src/core/Timer.cpp:69-79 | a popped handler invokes its callback iff it is enabled and has one |
| Timer.FinishRepeatsOrRetires | src/core/Timer.cpp:76-185 | afterwards a repeating handler is one interval later, keeps its callback and awaits insertion; any other is retired, disabled and without a callback |
| Timer.InsertPutsIntoHeap | src/core/Timer.cpp:196-205 | the first of the line goes into the heap; if it is now the next to fire the timerfd is armed for max(its expiration, now + 100), else left alone |
| Timer.TimerHistories | src/core/Timer.cpp:69-129 | in every run the n-th pop of a handler is for start + n * delta exactly and never early; a one-shot handler is popped at most once |
| Timer.BornOnce | src/core/Timer.cpp:59-67 | start and delta of a handler are fixed by its creation |
| Timer.HandleReadTakesTheDue | src/core/Timer.cpp:155-185 | handleRead as a function is a run of the machine: it keeps the invariant and pops exactly the due handlers in order |
| TimerQueue.SameOrder | src/core/Timer.cpp:36-44 | the heap stays ordered for the live comparator as long as the keys of its own handlers stay |
| TimerQueue.LeastIsTop | src/core/Timer.cpp:36-44 | an element with none below it is the unique least key |
| TimerQueue.TimerHandler.Disable | src/core/Timer.cpp:81-100 | the flag is set, the interval and the callback are cleared, and the expiration stays |
| TimerQueue.TimerHandler.ClearCallback | src/core/Timer.cpp:76-78 | a one-shot handler drops its callback after running |
| TimerQueue.TimerHandler.ReloadInLoop | src/core/Timer.cpp:119-129 | the next expiration is the last one plus the interval, or invalid |
| TimerQueue.TimerQueue.AddTimer | src/core/Timer.cpp:187-194 | a new handler awaits insertion; nothing else changes |
| TimerQueue.TimerQueue.AddTimerInLoop | src/core/Timer.cpp:196-205 | inserts the next awaiting handler, and re-arms exactly if it is now the top |
| TimerQueue.TimerQueue.Perform | src/core/Timer.cpp:81-117 | user actions on handler objects do what the machine's actions do |
| TimerQueue.TimerQueue.RunPopped | src/core/Timer.cpp:169-180 | run, reload and re-queue, or retire, as specified, with a callback that acts on any handlers |
| TimerQueue.TimerQueue.HandleRead | src/core/Timer.cpp:155-185 | the drain loop over the array heap ends in exactly the state the specification gives |
| CircularBuffer.NextIsRemainder | include/hohnor/common/CircularBuffer.h:50-50 | the wrap-around is the remainder of the source |
| CircularBuffer.CircularBuffer.Full | include/hohnor/common/CircularBuffer.h:93-94 | full iff it holds maxSize items |
| CircularBuffer.CircularBuffer.Empty | include/hohnor/common/CircularBuffer.h:90-90 | empty iff it holds none |
| CircularBuffer.CircularBuffer.Size | include/hohnor/common/CircularBuffer.h:97-100 | the number of items, across the wrap |
| CircularBuffer.CircularBuffer.Enqueue | include/hohnor/common/CircularBuffer.h:42-62 | appends at the back, or fails iff full and changes nothing |
| CircularBuffer.CircularBuffer.Dequeue | include/hohnor/common/CircularBuffer.h:65-84 | removes and returns the front, or fails iff empty and changes nothing |
| BoundedBlockingQueue.StepKeepsInv | include/hohnor/thread/BoundedBlockingQueue.h:31-112 | every step of every thread, spurious wake-ups included, keeps lock discipline, signal accounting and FIFO order |
| BoundedBlockingQueue.SignalAccounting | include/hohnor/thread/BoundedBlockingQueue.h:31-78 | whenever the lock is free: if a consumer sleeps, the items number at most the signalled consumers; if a producer sleeps, the free slots number at most the signalled producers |
| BoundedBlockingQueue.NoDeadlock | include/hohnor/thread/BoundedBlockingQueue.h:31-78 | when nothing moves any more, only consumers sleep on an empty queue, or only producers on a full one, or nobody sleeps |
| BoundedBlockingQueue.NoMutualSleep | include/hohnor/thread/BoundedBlockingQueue.h:31-78 | a sleeping producer and a sleeping consumer coexist only while someone holds the lock or enough threads have been signalled |
| BoundedBlockingQueue.Progress | include/hohnor/thread/BoundedBlockingQueue.h:31-112 | as long as some thread is neither idle nor asleep, some thread can move |
| BoundedBlockingQueue.GiveUpWakesAll | include/hohnor/thread/BoundedBlockingQueue.h:106-112 | when giveUp is about to unlock nobody sleeps |
| BoundedBlockingQueue.GivenUpForever | include/hohnor/thread/BoundedBlockingQueue.h:106-112 | after giveUp nobody ever sleeps again and the contents never change |
| BoundedBlockingQueue.FirstInFirstOut | include/hohnor/thread/BoundedBlockingQueue.h:31-78 | at every moment of every run, taken items followed by the contents are the accepted items in order, within the capacity; StoresItsArgument and ReturnsTheFront say whose items they are |
| BoundedBlockingQueue.StoresItsArgument | include/hohnor/thread/BoundedBlockingQueue.h:31-61 | in every run each accepted item is the argument of the last call of put by the thread that stores it, and goes to the back of the contents |
| BoundedBlockingQueue.ReturnsTheFront | include/hohnor/thread/BoundedBlockingQueue.h:63-78 | in every run what a take is about to return is the item its own thread removed from the front, in its latest pass under the lock |
| BoundedBlockingQueue.PutStores | include/hohnor/thread/BoundedBlockingQueue.h:31-61 | under the lock put appends its argument if there is room, waits with the contents unchanged if there is none, and leaves with them unchanged if given up |
| BoundedBlockingQueue.TakeRemoves | include/hohnor/thread/BoundedBlockingQueue.h:63-78 | under the lock take removes exactly the front, waits if there is nothing, and leaves with a default item and the contents unchanged if given up |
| BoundedBlockingQueue.OnlyWakesOthers | include/hohnor/thread/BoundedBlockingQueue.h:44-76 | no step of a thread changes another thread except by signalling a sleeper |
| BoundedBlockingQueue.BoundedBlockingQueue.PutUnderLock | include/hohnor/thread/BoundedBlockingQueue.h:31-61 | one pass of put over the ring buffer and the conditions is the protocol's put step, with its wait or its notify of some sleeper; the ring ends with the argument appended, or as it was |
| BoundedBlockingQueue.BoundedBlockingQueue.TakeUnderLock | include/hohnor/thread/BoundedBlockingQueue.h:63-78 | one pass of take over the ring buffer and the conditions is the protocol's take step, with its wait or its notify |
| BoundedBlockingQueue.BoundedBlockingQueue.GiveUp | include/hohnor/thread/BoundedBlockingQueue.h:106-112 | giveUp is the protocol's three steps under the lock: the flag and both broadcasts |
| BoundedBlockingQueue.BroadcastsWakeAll | include/hohnor/thread/BoundedBlockingQueue.h:106-112 | after them no thread sleeps on either condition and the contents are as before |
| ThreadPool.QueueRefines | src/thread/ThreadPool.cpp:32-104 | every pool step is a step of the queue's monitor or leaves the queue alone |
| ThreadPool.QueueRun | src/thread/ThreadPool.cpp:32-104 | every run of the pool contains a run of the queue that ends in the pool's queue |
| ThreadPool.QueueResultsInPool | src/thread/ThreadPool.cpp:32-104 | so inside the pool nobody sleeps without reason when the queue is at rest, somebody can move when it is not, and tasks leave it in order; RunningPoolWorks adds the workers |
| ThreadPool.ExitsOnlyAfterStop | src/thread/ThreadPool.cpp:82-104 | in every run a worker has left its loop only if running_ has been cleared |
| ThreadPool.EntersTake | src/thread/ThreadPool.cpp:76-84 | while running_ is set, a worker's own next steps lead from its start and from the loop test into take |
| ThreadPool.TaskGoesThrough | src/thread/ThreadPool.cpp:62-92 | run() gives its task to put, and a worker counts, starts and runs the very task that take returned to it |
| ThreadPool.AcceptsTheSubmitted | src/thread/ThreadPool.cpp:62-72 | in every run each task that enters the queue is the one its thread called run() with last |
| ThreadPool.RunningPoolWorks | src/thread/ThreadPool.cpp:74-98 | in every run, while running_ is set and a task is queued or some worker is not asleep in take, a step of a worker or inside the queue that is no spurious wake-up is enabled |
| ThreadPool.AtRestAllDone | src/thread/ThreadPool.cpp:74-98 | so when no such step is enabled in a running pool, every worker sleeps in take and no task is queued |
| ThreadPool.StepKeepsInv | src/thread/ThreadPool.cpp:52-104 | every step keeps placement of workers, progress of stop, the busy count, and the ownership of tasks |
| ThreadPool.BusyThreadsExact | src/thread/ThreadPool.cpp:84-98 | busyThreads_ is the number of workers between its increment and decrement, at every moment |
| ThreadPool.TaskAccounting | src/thread/ThreadPool.cpp:62-98 | every accepted task is in exactly one of queued, held by one worker, running on one worker, finished or skipped |
| ThreadPool.FatesForward | src/thread/ThreadPool.cpp:82-98 | over a run the state of a task only moves forward |
| ThreadPool.StartsOnce | src/thread/ThreadPool.cpp:82-98 | two starts in a run are of different tasks |
| ThreadPool.NothingDequeuedAfterGiveUp | src/thread/ThreadPool.cpp:52-60 | once giveUp is done no worker ever dequeues again, so unstarted tasks never run |
| ThreadPool.StopReturnsClean | src/thread/ThreadPool.cpp:52-60 | when stop has returned every worker has exited, busyThreads_ is 0 and every dequeued task is settled |
| ThreadPool.ShutdownTerminates | src/thread/ThreadPool.cpp:52-104 | during shutdown every step of a worker brings it strictly closer to its exit and no other step moves it away |
| ThreadPool.ShutdownNeverBlocks | src/thread/ThreadPool.cpp:52-104 | a worker that has not exited can move, or waits only for a lock whose holder can |
| ThreadPool.HolderMoves | src/thread/ThreadPool.cpp:52-104 | at every moment, also before the shutdown, whoever holds the lock can move |
| ThreadPool.HolderLeaves | include/hohnor/thread/BoundedBlockingQueue.h:31-112 | every step inside the critical section brings the unlock strictly closer |
| ThreadPool.StopTerminates | src/thread/ThreadPool.cpp:52-60 | from its call on, every step of stop brings its return strictly closer, and no other step sets it back |
| ThreadPool.StopNeverBlocks | src/thread/ThreadPool.cpp:52-60 | from its call to its return stop can move, or waits for a lock whose holder can, or joins a worker that goes on; when all workers are done it returns |
| Buffer.EnsureWritable | include/hohnor/common/Buffer.h:160-212 | the requested room is there, the bytes are the same, and the buffer never shrinks |
| Buffer.DoActsOnBytes | include/hohnor/common/Buffer.h:49-212 | each operation acts on the readable bytes as on a plain sequence and keeps the size at 8 or more |
| Buffer.ActsLikeBytes | include/hohnor/common/Buffer.h:49-212 | so does any sequence of append, prepend, retrieve, unwrite, ensureWritable, shrink and readFd |
| Buffer.RoomLeft | include/hohnor/common/Buffer.h:160-212 | shrink leaves the reserve it was asked for in max(1024, bytes + reserve) + 8; other operations never reduce the size, and it grows iff neither the tail nor moving to the front makes the room |
| Buffer.UndoLaws | include/hohnor/common/Buffer.h:118-173 | unwrite takes back an append; retrieve takes back a prepend |
| Buffer.Buffer.RetrieveBytes | include/hohnor/common/Buffer.h:49-56 | drops a prefix; dropping all resets the indices |
| Buffer.Buffer.RetrieveAsString | include/hohnor/common/Buffer.h:75-80 | returns exactly the bytes it drops |
| Buffer.Buffer.MoveToFront | include/hohnor/common/Buffer.h:203-207 | the overlapping forward copy keeps every byte |
| Buffer.Buffer.MakeSpace | include/hohnor/common/Buffer.h:199-212 | growth and compaction both keep the content and deliver the room |
| Buffer.Buffer.AppendText | include/hohnor/common/Buffer.h:114-131 | the array and indices end as the append of the specification |
| Buffer.Buffer.PrependText | include/hohnor/common/Buffer.h:134-148 | likewise for prepend |
| Buffer.Buffer.UnwriteBytes | include/hohnor/common/Buffer.h:167-173 | likewise for unwrite |
| Buffer.Buffer.ShrinkTo | include/hohnor/common/Buffer.h:184-191 | a fresh array with the same bytes and the reserve |
| Buffer.Buffer.ReadFromFd | src/net/Buffer.cpp:10-42 | appends exactly the bytes read, for every split between tail and overflow buffer; an error changes nothing |
| TCPConnection.WriteLocated | src/net/TCPConnection.cpp:366-412 | a write, with all that callbacks write inside it, keeps for every byte taken or buffered the position at which it was accepted |
| TCPConnection.WriteAdds | src/net/TCPConnection.cpp:366-412 | and it puts out every byte accepted meanwhile exactly once |
| TCPConnection.DirectWriteTakes | src/net/TCPConnection.cpp:375-393 | with nothing pending exactly the first n bytes that ::write reports join those taken, before any callback; otherwise none do |
| TCPConnection.PlainWrite | src/net/TCPConnection.cpp:366-412 | a message that calls no callback: taken up to the count, the rest buffered, all of it buffered behind pending bytes or after an error, nothing after a fault |
| TCPConnection.AbortsOnlyOnFault | src/net/TCPConnection.cpp:384-395 | nothing aborts but a message, or a write of a callback it calls, that meets EPIPE or ECONNRESET |
| TCPConnection.EventTakes | src/net/TCPConnection.cpp:292-326 | a writable event moves exactly the n bytes that ::write reports, partial or full, from the front of the buffer to the kernel, and nothing on an error; a full drain switches the event off and shrinks a large buffer |
| TCPConnection.TakenAsReturned | src/net/TCPConnection.cpp:292-412 | in every run the bytes taken number exactly the sum of the counts that ::write has returned, those inside callbacks included |
| TCPConnection.EventKeepsInv | src/net/TCPConnection.cpp:292-326 | a writable event keeps every byte at its accepted position and the flags in step; EventTakes says which bytes it moves |
| TCPConnection.OutputConserved | src/net/TCPConnection.cpp:292-424 | in every run, with any partial counts, errors and writes from callbacks, every accepted byte is with the kernel or in the buffer exactly once; writing_, a non-empty buffer and EPOLLOUT are equivalent; TakenAsReturned says how many are with the kernel |
| TCPConnection.OutputInOrderIff | src/net/TCPConnection.cpp:292-424 | in every run, bytes taken then bytes buffered are the accepted bytes in order if and only if no high-water callback has written a byte |
| TCPConnection.AcceptedAreTheMessages | src/net/TCPConnection.cpp:366-412 | then the accepted bytes are the messages, one after the other |
| TCPConnection.OrderKeptIff | src/net/TCPConnection.cpp:398-411 | one write keeps the order iff its high-water callback is not called or has nothing to write, told by positions and so for all texts |
| TCPConnection.FiresOnCrossing | src/net/TCPConnection.cpp:398-404 | in an operation the high-water callback is called iff it is set and the operation takes pending output from below the mark to at or above it |
| TCPConnection.ScriptFiresIff | src/net/TCPConnection.cpp:398-404 | the writes of a callback, to any depth, call it again iff together they cross the mark |
| TCPConnection.FiresAgainIff | src/net/TCPConnection.cpp:398-406 | so it is called again while it runs, with nothing drained, iff what it writes reaches the mark by itself |
| TCPConnection.FirstInnerFiresIff | src/net/TCPConnection.cpp:398-404 | its first write calls it again iff pending output plus what the kernel leaves of that write reaches the mark |
| TCPConnection.FiresTwiceExample | src/net/TCPConnection.cpp:398-406 | a run in which it is called twice with nothing drained in between |
| TCPConnection.DrainedBetweenFirings | src/net/TCPConnection.cpp:301-404 | after an operation that calls the callback, output is below the same mark again only through a writable event that crossed it downwards; within one operation see FiresAgainIff |
| TCPConnection.CompleteMeansAllTaken | src/net/TCPConnection.cpp:306-382 | in every run a write-complete callback is queued with every accepted byte at the kernel iff it is not queued from inside a high-water callback |
| TCPConnection.CompletesEarlyIff | src/net/TCPConnection.cpp:376-406 | a callback with one write queues one too early iff nothing was queued before, the kernel takes that write whole, and a write-complete callback is set |
| TCPConnection.CompletesEarlyExample | src/net/TCPConnection.cpp:376-406 | a run in which that happens, and a byte overtakes the rest of the message before it |
| TCPConnection.CompletesWhenDrained | src/net/TCPConnection.cpp:306-314 | exactly one is queued, with all bytes taken, whenever the last pending byte is taken |
| TCPConnection.TCPConnection.constructor | src/net/TCPConnection.cpp:15-39 | a new connection has an empty buffer and no write event |
| TCPConnection.TCPConnection.SetHighWaterMarkCallback | src/net/TCPConnection.cpp:52-59 | changes the mark and the callback only |
| TCPConnection.TCPConnection.WriteInLoop | src/net/TCPConnection.cpp:366-412 | buffer, flag, mask, abort and the callbacks called end as specified, with a high-water callback that writes before the append |
| TCPConnection.TCPConnection.CheckHighWater | src/net/TCPConnection.cpp:398-404 | the callback is called on the pending length before the append, and its writes are calls of writeInLoop |
| TCPConnection.TCPConnection.HandleWrite | src/net/TCPConnection.cpp:292-326 | buffer, flag and mask end as specified and as EventTakes describes, with the shrink of a large empty buffer |
| TCPConnector.StepKeepsInv | src/net/TCPConnector.cpp:118-277 | every event keeps the connector in exactly one phase: trying, waiting for its timer, connected, or given up |
| TCPConnector.OneTimer | src/net/TCPConnector.cpp:240-264 | after one start at most one retry timer is pending, and only while Disconnected |
| TCPConnector.Outcome | src/net/TCPConnector.cpp:188-277 | with N retries at most N + 1 attempts; success and failure at most once in total; failure only after N + 1 failed attempts |
| TCPConnector.Backoff | src/net/TCPConnector.cpp:248-264 | the k-th retry waits min(500 * 2^k, 30000) ms, or the constant delay |
| TCPConnector.NeverStuck | src/net/TCPConnector.cpp:162-277 | until the outcome is reported the connector watches its socket or has a timer that can fire |
| TCPConnector.OutcomeComesCloser | src/net/TCPConnector.cpp:240-277 | with a limit, every step of an undecided connector strictly reduces the steps left |
| TCPConnector.FinalIffLimitReached | src/net/TCPConnector.cpp:248-276 | a failed attempt is final iff the limit is not negative and used up; otherwise it schedules a timer |
| TCPConnector.FirstFailureFinalIffZero | src/net/TCPConnector.cpp:67-163 | the first failed attempt after a start is final iff the limit is zero |
| TCPConnector.ConnectTold | src/net/TCPConnector.cpp:118-163 | connect() leaves the attempt in progress and its socket watched iff errno is 0, EISCONN, EINPROGRESS or EINTR; any other value ends the attempt with a timer or the report of failure |
| TCPConnector.WriteEventTold | src/net/TCPConnector.cpp:188-222 | while connecting, a write event connects iff getSockError() is 0, and otherwise ends the attempt |
| TCPConnector.ConnectedIffNoError | src/net/TCPConnector.cpp:118-222 | in every run the connector is connected iff some write event has found getSockError() at 0 |
| TCPConnector.FailuresCounted | src/net/TCPConnector.cpp:118-238 | in every run the failed attempts are exactly those ended by connect(), by a write event with an error, or by an error event before the connection |
| TCPConnector.StopTold | src/net/TCPConnector.cpp:88-116 | stop ends the attempt or connection with a new socket at hand, disables any handler but one given away, and leaves timers and counters alone |
| TCPConnector.StartTold | src/net/TCPConnector.cpp:67-86 | whatever happened before, start counts retries from 0 and starts from 500 ms, or the constant delay |
| TCPConnector.TCPConnector.StopConnecting | src/net/TCPConnector.cpp:88-116 | a success keeps its handler, anything else loses it; a new socket follows; nothing happens when Disconnected |
| TCPConnector.TCPConnector.RetryLater | src/net/TCPConnector.cpp:240-277 | stops, then schedules one timer and reports a retry, or reports failure |
| TCPConnector.TCPConnector.TryConnect | src/net/TCPConnector.cpp:118-163 | in-progress errors watch the socket, all others end in a retry; nothing is reported iff errno is 0, EISCONN, EINPROGRESS or EINTR |
| TCPConnector.TCPConnector.ConnectWrite | src/net/TCPConnector.cpp:188-222 | a connection is reported iff the state is Connecting and the socket has no error; success gives the handler away, an error retries |
| TCPConnector.TCPConnector.ConnectError | src/net/TCPConnector.cpp:224-238 | retries, unless already connected |
| TCPConnector.TCPConnector.Start | src/net/TCPConnector.cpp:67-86 | resets counter and delay, keeps a constant delay, and connects |
| TCPConnector.TCPConnector.TimerExpires | src/net/TCPConnector.cpp:258-264 | connects only if still Disconnected |
| Date.DateRoundTrip | src/time/Date.cpp:16-38 | a Gregorian date comes back from its Julian day if and only if it is not before 1 March -4800 |
| Date.JulianDayRoundTrip | src/time/Date.cpp:16-38 | a Julian day comes back from a valid date if and only if it is -32044 or later |
| Date.BeforeFirstJulianDay | src/time/Date.cpp:25-38 | before that, truncating division gives a day of the month that is not positive |
| Date.NextDayIsNextNumber | src/time/Date.cpp:16-23 | the next calendar day, over month ends, leap years and centuries, has the next number |
| Date.CountingAgrees | src/time/Date.cpp:16-38 | both conversions agree with counting days one by one from the first |
| Date.JulianOrderIsDateOrder | src/time/Date.cpp:16-23 | the order of the numbers is the order of the dates |
| Date.WeekDayCycle | include/hohnor/time/Date.h:95-99 | weekdays advance by one and repeat after seven |
| Date.EpochNumber | src/time/Date.cpp:40-40 | 1 January 1970 is Julian day 2440588 |
| Date.WeekDaysFromEpoch | include/hohnor/time/Date.h:95-99 | that day is a Thursday, Sunday being 0, and every later day has the weekday counted from it |
| Date.NoOverflowRange | src/time/Date.cpp:25-38 | every intermediate of getYearMonthDay fits 32 bits if and only if the number is at most 536838867 |
| Date.NumberNoOverflowRange | src/time/Date.cpp:16-23 | every intermediate of getJulianDayNumber fits 32 bits if and only if the date is not after 15 December 5874689 |
| StringConverter.NumeralReads | src/log/LogStream.cpp:40-79 | a printed number reads back as itself in its radix, without leading zeros |
| StringConverter.KnownNumerals | src/log/LogStream.cpp:32-79 | the sixteen digits are 0-9 and A-F in order, and three numerals are the expected ones |
| StringConverter.DecimalRoundTrip | src/log/LogStream.cpp:40-61 | so does a signed decimal, with a minus sign only for negatives |
| StringConverter.DecimalInjective | src/log/LogStream.cpp:40-61 | different integers print differently |
| StringConverter.NumeralLength | src/log/LogStream.cpp:40-79 | a number has at most k digits if and only if it is below the k-th power of the radix |
| StringConverter.Decimal64Length | include/hohnor/log/LogStream.h:189-189 | a 64-bit value, the minimum included, takes at most 20 characters |
| StringConverter.Hex64Length | src/log/LogStream.cpp:63-79 | a 64-bit address takes at most 16 hexadecimal digits |
| StringConverter.LowDigitsReversed | src/log/LogStream.cpp:46-58 | digits produced from the low end and reversed are the numeral |
| StringConverter.LowestDigit | src/log/LogStream.cpp:48-50 | truncating remainder and the mirrored table give the digit of the magnitude for either sign, and index the table in range |
| StringConverter.ReverseRange | src/log/LogStream.cpp:58-58 | std::reverse in place, touching nothing else |
| StringConverter.Convert | src/log/LogStream.cpp:40-61 | writes exactly the decimal and a NUL, returns its length, and touches nothing else |
| StringConverter.ConvertHex | src/log/LogStream.cpp:63-79 | writes exactly the hexadecimal numeral and a NUL, and touches nothing else |
| LogStream.FixedBuffer.Append | include/hohnor/log/LogStream.h:35-47 | all of the text or none; one character always stays free |
| LogStream.FixedBuffer.FormatInteger | src/log/LogStream.cpp:110-118 | the number is appended whole if 48 characters are free and dropped otherwise; the buffer is never overrun |
| LogStream.FixedBuffer.FormatPointer | src/log/LogStream.cpp:168-180 | likewise for "0x" and the address |
| CArithmetic.TruncMod | src/log/LogStream.cpp:48-48 | the C++ remainder has the sign of the dividend and a smaller magnitude than the divisor |
| CArithmetic.TruncDivTruncates | src/time/Date.cpp:16-38 | the C++ quotient is the exact one without its fraction, for either sign |

## Left out

- EventLoop.EventLoop.RunLoop: one run of the state machine, the one in which all functors are queued by user code on the loop thread; the interleavings with other threads are in the state machine. The poll reports the eventfd if it is readable; events of other descriptors are the functors their callbacks queue.
- Timer.ResetIsExact: the call of now() and the call of timerfd_settime are one instant.
- Timer.TimerHistories: the interval is the whole number of microseconds that addTime computes from a double; the conversion itself is not modelled.
- TimerQueue.TimerQueue.HandleRead: a shared_ptr to a handler is its sequence number, looked up in a registry; a callback that replaces or clears the std::function being executed is an object-lifetime matter.
- TCPConnector.Backoff: delays in milliseconds; the conversion to a double number of seconds is not modelled.
- TCPConnection.TCPConnection.WriteInLoop: a high-water callback writes and does nothing else to its connection; one that sets callbacks or never stops calling itself is not modelled. After an abort nothing is claimed.
- TCPConnection.CompletesEarlyIff: for a callback with one write; with more of them, to any depth, `TCPConnection.CompleteMeansAllTaken` says which completions are early.
- Object lifetime everywhere: shared_ptr and weak_ptr, raw handler pointers in epoll data, handlers destroyed inside their own dispatch, and text that another thread passes without copying.
- System calls and the kernel: sockets, epoll_wait, timerfd, fcntl; only their results appear. An eventfd is a saturating counter and epoll a map.
- Integer widths other than those stated: counters and sizes do not overflow, and a StringPiece length is not cut to int.
- `lastWriteBytes_` of the buffer and `readUntil`, which depends on it: readFd, retrieve and swap do not keep it, so the delimiter property does not hold of the code.
- The no-argument `write()` and direct edits of the write buffer, which bypass `writing_`; closing, and error callbacks.
- `disable` and callback setters of a handler called from other threads; the model is the loop thread.
- Stopping or restarting the connector during a backoff: `stop` returns early and the timer is not cancelled. Each dispatch delivers one callback to the connector's current handler, as `IOHandler.DisableEndsDispatch` shows it does.
- The thread pool before `start` or with no threads, which runs tasks inline; tasks that submit to or stop their own pool; exceptions, which abort; the wait loops of `put` and `take` are steps of the monitor, not `while` loops of a method.
- Running `loop()` on another thread than its creator, `endLoop` from another thread while Ready, and cleanup after End.
- SignalHandler, keyboard handling, log files, ProcessInfo, InetAddress, UDP, floating-point and SI/IEC formatting: input, output or library formatting.
- BlockingQueue, CountDownLatch and Mutex: easier relatives of the bounded queue.

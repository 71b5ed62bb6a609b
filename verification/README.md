# Timers, threads, queues and camera buffers: a verified model

A Dafny model of the concurrent and resource-keeping code of a device's GPS utilities
(`gps/utils`, `gps/core`) and camera HAL (`camera/QCamera2/HAL`), with proofs of what that code
keeps over every run. `dafny verify dfyconfig.toml` checks all of it.

**The timer service** is one small concurrent system, modelled in layers that compose.

- `HeapTree.dfy` is the value of a `LocHeap` for an arbitrary ranking and what its operations do to
  it; `LocHeap.dfy` has the nodes with their links, sizes and data updated in place, each method
  proved to compute the functions of `HeapTree`.
- `LinkedList.dfy` is the doubly linked list, `MsgQueue.dfy` the blocking queue built on it with
  any number of threads, `MsgQueueWakeup.dfy` its sleeping receivers, `MsgTask.dfy` the single consumer of such a queue.
- `LocThread.dfy` is the reference-count protocol between a parent and its thread; every access to
  the shared delegate is a step.
- `TimerCore.dfy` and `LocTimerContainer.dfy` are due times, the ranking, the expiry batch and the
  kernel calls of a container. `TimerProtocol.dfy` interleaves client threads, worker, poll thread
  and clock; its worker steps are the very functions that the container's methods are proved
  against, and `MsgTasks.HandledInOrder` ties its queue to the message queue.
  `TimerConservation`, `TimerWakeup`, `TimerLifetime` and `TimerLocks` prove what each step keeps,
  `TimerCalls.dfy` what each call does in every run, `TimerSafety.dfy` what follows for all runs, and `TimerEarly.dfy` when an expiry fires early.
  `TimerRestart.dfy` and `TimerEarlyRuns.dfy` exhibit surprising runs.

**The camera HAL**: `BufferPool.dfy` (stream memory and its pool), `BufferPoolThreads.dfy` (streams on
threads that share a pool), `Gralloc.dfy` (preview buffers shared with the native window),
`DeferredWork.dfy` (job slots), `DeferredWaiters.dfy` (who waits for them) and `Notifier.dfy` (the
callback thread). **Companions**: `AdapterTable.dfy` and `SplitString.dfy`.

Classes mirror the source's objects and are updated in place; each method equates the new state
with a specification function of the old one, and the lemmas are about those functions. The
outcomes of system calls, of the window and of the ION device are parameters, quantified over.

## Where the code is surprising

The model keeps the code's behaviour; these are proved, not repaired.

- Timers rank by whole seconds and the first pop of an expiry is unconditional. A timer is called
  back four seconds early after the due one is stopped, whether between the fd's report and the
  expiry message (`RemovedAfterReportFiresEarly`) or before the report, from a container left empty
  and armed (`RemovedBeforeReportFiresEarly`). `FirstPopIsDue` says for every run that only this, or
  an expiry in between, leads to it; `ExpiryNeverEarlyIff` says exactly when an expiry pops no timer
  early.
- `LocSharedLock` counts without a lock of its own, and the worker drops it while clients share it
  under the timer's lock. An overlap can lose a count and delete the lock under a user
  (`LostShareExample`); exactly when is `ExactIffNothingBetween`.
- The disarming branch of `updateSoonestTime` is never taken: both callers that pass NULL meet an
  empty heap with `curTop == priorTop`, and a push never leaves the heap empty (`PushMsgCalls`,
  `RemoveMsgCalls`). An emptied container leaves its fd armed.
- A timer stopped and restarted while its expiry is under way is stopped and called back by that
  expiry, however far off it now is (`RestartedTimerFiresEarly`, `ExpiryStopsItsOwn`).
- `LocThread.h:71-76` promises that the caller keeps the runnable after a failed `start()`. The
  code keeps that promise iff the thread was not created (`RefusedStartOwnership`,
  `QuickRunnableIsRefused`). A `stop()` before the thread first reads `mRunnable` leaves the
  runnable undeleted (`StoppedBeforeReadLeaks`).
- A failed `allocateMore` releases the stream's live buffers to the pool and keeps them, and
  `allocate` on a stream with live slots drops as many as it had; when a call does neither is
  `ConservedIffHarmless`, and for interleaved calls `StepConservesIff` (`FailedMoreOwnsTwice`,
  `LiveSlotsExample`).
- A preview `allocate` over live buffers that fails after `set_buffer_count` leaves the old count
  with flags or handles that no longer fit (`FailedReallocationExample`); when it does not is
  `AllocateKeepsIff`.
- A deferred job without a channel, or with an unknown command, is given up and keeps its slot for
  ever (`JobFate`, `DroppedForEver`, `LostSlotExample`).
- `mDeffCond.signal` wakes one thread whatever slot it waits for, so a finished job can leave its
  waiter asleep (`StrandedExample`); exactly when is `FinishStrandsIff`, and with one waiter at a
  time it never does (`OneWaiterIsSafe`).
- A session's snapshot counter wraps around, and then raises SNAPSHOT_DONE again (`SecondDone`);
  when it has raised it at most once is `DoneAtMostOnceIff`.
- `loc_util_trim_space` leaves a string of nothing but spaces as it is (`TrimsIff`, `SpacesStay`).

## Model

| member | source | states |
|---|---|---|
| HeapTree.CheckNodesIsHeap | gps/utils/LocHeap.cpp:197-220 | The code's self-check, which compares each child with its parent and cached sizes with each other, accepts a tree iff no node is outranked by any descendant and every cached size is the true one |
| HeapTree.PushElements | gps/utils/LocHeap.cpp:107-124 | Push adds exactly the pushed datum to the contents, and one node |
| HeapTree.PushKeepsHeap | gps/utils/LocHeap.cpp:107-124 | Push keeps the heap and its sizes for any total-preorder ranking; the top changes only to a datum that outranks it |
| HeapTree.PushGoesToTheSmaller | gps/utils/LocHeap.cpp:107-124 | A push goes into the left subtree iff that is missing or there is a right one no smaller, whatever the sizes, and leaves the other as it is; the top is the higher ranked datum |
| HeapTree.PopElements | gps/utils/LocHeap.cpp:134-164 | Pop takes exactly the top's datum out of the contents, and one node |
| HeapTree.PopKeepsHeap | gps/utils/LocHeap.cpp:134-164 | What pop leaves is a heap with correct sizes whose top does not outrank the popped datum |
| HeapTree.PopPromotesOne | gps/utils/LocHeap.cpp:134-164 | A pop promotes the left child iff there is no right one or it outranks that, so the right one on a tie, and leaves the other subtree as it is |
| HeapTree.RemoveExact | gps/utils/LocHeap.cpp:170-193 | Rank pruning loses nothing: remove succeeds iff the datum is in the tree, and takes out exactly one occurrence and one node |
| HeapTree.RemoveKeepsHeap | gps/utils/LocHeap.cpp:170-193 | Remove keeps the heap and the sizes, and leaves the top alone unless the top is what it removed |
| HeapTree.RemoveLooksLeftFirst | gps/utils/LocHeap.cpp:170-193 | A datum below the top is taken from the left subtree if it is there, else from the right; the other stays |
| HeapTree.RemoveSkips | gps/utils/LocHeap.cpp:170-193 | Nothing is looked for below a top that the datum outranks |
| HeapTree.PushKeepsBraun | gps/utils/LocHeap.cpp:107-124 | Pushing into the missing or smaller subtree keeps left size minus right size at 0 or 1 at every node |
| HeapTree.BraunHeight | gps/utils/LocHeap.cpp:107-124 | Such a tree of n nodes has height floor(log2 n) + 1, said with powers of two |
| HeapTree.PushOnlyIsBraun | gps/utils/LocHeap.cpp:107-124 | After any n pushes into an empty heap: contents, heap, Braun shape, that height, and a push recursion no deeper than it |
| HeapTree.RunConserves | gps/utils/LocHeap.cpp:107-267 | Over any run of push, pop and remove, pushed = in the heap + popped + removed as multisets, and the self-check holds in every reachable state with the top's size the number of elements |
| HeapTree.DrainSorts | gps/utils/LocHeap.cpp:134-164 | Popping until empty yields every element once, in non-increasing rank |
| LocHeaps.LocHeapNode.constructor | gps/utils/LocHeap.cpp:34-60 | A new node is childless with size 1 |
| LocHeaps.LocHeapNode.Swap | gps/utils/LocHeap.cpp:88-92 | Two nodes exchange their data; links and sizes stay |
| LocHeaps.LocHeapNode.Push | gps/utils/LocHeap.cpp:107-124 | In place, the subtree becomes HeapTree.Push of what it was, and gains exactly the new node |
| LocHeaps.LocHeapNode.Pop | gps/utils/LocHeap.cpp:134-164 | In place, the subtree becomes HeapTree.Pop of what it was; the node cut off is one of its own, childless, and holds the old top's datum |
| LocHeaps.LocHeapNode.Remove | gps/utils/LocHeap.cpp:170-193 | In place, the subtree becomes HeapTree.Remove of what it was; NULL and no change iff that finds nothing |
| LocHeaps.LocHeapNode.CheckNodes | gps/utils/LocHeap.cpp:197-220 | Returns the self-check of the subtree's value |
| LocHeaps.LocHeap.Push | gps/utils/LocHeap.cpp:228-235 | The heap becomes HeapTree.Push of what it was |
| LocHeaps.LocHeap.Peek | gps/utils/LocHeap.cpp:237-243 | The top's datum, or none |
| LocHeaps.LocHeap.Pop | gps/utils/LocHeap.cpp:245-254 | Hands back the top's datum and becomes HeapTree.Pop, or is empty and hands back none |
| LocHeaps.LocHeap.Remove | gps/utils/LocHeap.cpp:256-267 | Hands the datum back iff it was there, and becomes HeapTree.Remove |
| LinkedLists.LinkedList.Add | gps/utils/linked_list.c:110-155 | Prepends; head, tail, next and prev keep describing one sequence (Valid) |
| LinkedLists.LinkedList.Remove | gps/utils/linked_list.c:162-204 | Takes the last entry, or reports that there is none |
| LinkedLists.LinkedList.IsEmpty | gps/utils/linked_list.c:211-223 | True iff the sequence is empty |
| LinkedLists.LinkedList.Flush | gps/utils/linked_list.c:230-260 | Empties the list and calls the deallocator of each entry that has one, once, head first |
| LinkedLists.LinkedList.Search | gps/utils/linked_list.c:267-327 | Finds the match nearest the head; with removal it takes out just that one, deallocating it iff nobody wanted it and it has a deallocator |
| LinkedLists.LinkedList.TakeOut | gps/utils/linked_list.c:297-318 | Unlinks an element anywhere in the chain; the rest keeps its order |
| LinkedLists.FirstMatch | gps/utils/linked_list.c:285-322 | The position Search stops at: it matches, nothing before it does |
| LinkedLists.DeallocsSplit | gps/utils/linked_list.c:230-260 | Flushing two lists one after the other deallocates what flushing their concatenation does |
| MsgQueues.StepLeads | gps/utils/msg_q.c:185-336 | Every critical section keeps order and loses nothing: old pending + newly sent = newly taken + new pending; once unblocked, nothing more is sent |
| MsgQueues.RunLeads | gps/utils/msg_q.c:185-336 | The same between any two points of any interleaving |
| MsgQueues.RunIsFifo | gps/utils/msg_q.c:185-336 | From the empty queue: what was sent is what was received or flushed, in that order, followed by what is pending |
| MsgQueues.AfterUnblock | gps/utils/msg_q.c:185-336 | At any time after an unblock a send and a newly begun receive fail without effect, and an awakened receiver succeeds iff a message is pending and never waits again |
| MsgQueues.SendAnswers | gps/utils/msg_q.c:185-221 | A send succeeds iff the queue is not unblocked, and then its message is last |
| MsgQueues.ReceiveAnswers | gps/utils/msg_q.c:228-269 | A receive takes the oldest message, or fails after an unblock, or waits, and its thread is among those waiting iff it waits |
| MsgQueues.FlushAndUnblockAnswer | gps/utils/msg_q.c:276-336 | A flush takes every message in order and leaves none; an unblock changes only that, and succeeds once |
| MsgQueueWakeup.StepAttended | gps/utils/msg_q.c:204-260 | Every send with its signal, wake-up, receive and broadcast keeps this: while a receiver sleeps, the queue is not unblocked and as many have been woken as messages are pending |
| MsgQueueWakeup.NobodyForgotten | gps/utils/msg_q.c:204-330 | In every interleaving, whichever thread a signal wakes, a receiver is asleep only before an unblock, and only if each pending message has a woken receiver of its own |
| MsgQueueWakeup.QueueRun | gps/utils/msg_q.c:185-336 | Such runs are runs of the queue: what was sent is what was taken, in order, then what is pending |
| MsgQueues.MsgQ.Send | gps/utils/msg_q.c:185-221 | The queue object moves as Snd does |
| MsgQueues.MsgQ.ReceiveEnter | gps/utils/msg_q.c:228-269 | msg_q_rcv up to its first wait moves as RcvEnter does |
| MsgQueues.MsgQ.ReceiveWake | gps/utils/msg_q.c:228-269 | msg_q_rcv from a wake-up on moves as RcvWake does |
| MsgQueues.MsgQ.FlushAll | gps/utils/msg_q.c:276-299 | Flush empties the queue and deallocates each pending message that carries a deallocator |
| MsgQueues.MsgQ.UnblockAll | gps/utils/msg_q.c:306-336 | The first unblock succeeds and is final |
| MsgTasks.MsgTask.SendMsg | gps/utils/MsgTask.cpp:76-78 | A message is queued, or dropped after destroy() |
| MsgTasks.MsgTask.Run | gps/utils/MsgTask.cpp:85-102 | Each call that goes on handles exactly the next message in sending order; it ends only when the queue is unblocked |
| MsgTasks.MsgTask.Destroy | gps/utils/MsgTask.cpp:65-66 | Unblocks the queue and handles nothing |
| MsgTasks.FeedStep | gps/utils/MsgTask.cpp:76-102 | Any step of the timer protocol does to a msg_q what it does to the protocol's queue |
| MsgTasks.HandledInOrder | gps/utils/MsgTask.cpp:76-102 | In every run of the timer service the queue is that of a msg_q with one consumer: messages sent = messages handled, in order, then the queue |
| LocThread.StepInv | gps/utils/LocThread.cpp:65-202 | Every single access by parent or thread keeps the reference-count, runnable, phase and join invariants |
| LocThread.RunInv | gps/utils/LocThread.cpp:65-202 | They hold in every state of every interleaving, creation failure included |
| LocThread.LoopGoesOn | gps/utils/LocThread.cpp:186 | After run() returned true the thread's next step is to test mRunnable, and it runs again iff that is set; after false it has done with the loop |
| LocThread.NullEndsTheLoop | gps/utils/LocThread.cpp:130-190 | Once mRunnable is NULL it stays so, and a thread not inside run() by then never enters it again |
| LocThread.StopClears | gps/utils/LocThread.cpp:137-139 | stop() clears mRunnable |
| LocThread.ByeStopsJoinable | gps/utils/LocThread.cpp:130-146 | bye() stops a joinable thread and leaves a detached one to run on |
| LocThread.TestsDecide | gps/utils/LocThread.cpp:182-190 | prerun(), run() and postrun() are each called iff mRunnable is set at the test before them |
| LocThread.CallsInOrder | gps/utils/LocThread.cpp:175-199 | In every run the runnable sees prerun first, then run while it returns true, postrun only after a run that returned false, and its deletion last |
| LocThread.NeverTouchedAfterFree | gps/utils/LocThread.cpp:130-202 | No party touches a freed delegate, the join's read of the thread handle included, and destroy() never meets a zero count |
| LocThread.FreedExactlyOnce | gps/utils/LocThread.cpp:153-202 | The delegate is freed at most once, only when both parties are through destroy() (the parent alone if no thread was created), and then it has been |
| LocThread.RunnableFreed | gps/utils/LocThread.cpp:175-202 | The runnable is deleted at most once and only by its thread; an exited thread has deleted it iff stop() did not clear mRunnable before the thread first read it |
| LocThread.RefusedStartOwnership | gps/utils/LocThread.cpp:111-123 | After a refused start() the runnable is still the caller's iff the thread was not created |
| LocThread.JoinedBeforeReturn | gps/utils/LocThread.cpp:130-146 | After stop() of a joinable thread that thread has exited and the delegate is freed |
| LocThread.QuickRunnableIsRefused | gps/utils/LocThread.cpp:111-123 | A run in which a quick runnable makes start() fail although its thread ran and deleted it |
| LocThread.StoppedBeforeReadLeaks | gps/utils/LocThread.cpp:175-202 | A run in which an early stop() leaves the runnable undeleted for good |
| TimerCore.FutureTimeExact | gps/utils/LocTimer.cpp:546-553 | The due time is now plus the delay to the nanosecond, normalised, with no 32-bit overflow on the way |
| TimerCore.RankingOk | gps/utils/LocTimer.cpp:503-512 | Comparing whole seconds is a total-preorder ranking, as the heap needs |
| TimerCore.PushMsgCalls | gps/utils/LocTimer.cpp:281-321 | A push arms the fd iff it makes a new top, and for that top; updateSoonestTime's disarming branch is never taken |
| TimerCore.RemoveMsgCalls | gps/utils/LocTimer.cpp:281-346 | A remove takes out exactly its timer and re-arms for the next top iff it was the top and another is left |
| TimerCore.PopDueExact | gps/utils/LocTimer.cpp:360-390 | The conditional pops split the heap into exactly the due and the not due |
| TimerCore.PopDueSorted | gps/utils/LocTimer.cpp:360-390 | They come out in due order, none before the top |
| TimerCore.BatchExact | gps/utils/LocTimer.cpp:355-390 | One expiry pops the top unconditionally, then only due timers, in rank order; nothing due stays; popped + left = what was there |
| TimerCore.BatchIsTheDue | gps/utils/LocTimer.cpp:355-390 | If the top was due the batch is exactly the due timers, else it is the top alone |
| TimerCore.LessThanASecondEarly | gps/utils/LocTimer.cpp:503-512 | A timer that is due by the ranking is less than one second early |
| TimerEarly.FirstPopIsDue | gps/utils/LocTimer.cpp:281-381 | In every run, an expiry handled over a non-empty container stems from one report of its fd, armed for a delegate then due; the first pop is due to the second iff some timer left in the heap is, and it is unless that delegate was removed or popped since the fd was armed for it |
| TimerEarly.ExpiryPopsTheBatch | gps/utils/LocTimer.cpp:355-390 | In every run, whatever the other threads do meanwhile, from an expiry message over a non-empty container to the end of its loop the worker pops exactly the batch of the heap it found, in order, and leaves the rest |
| TimerEarly.ExpiryNeverEarlyIff | gps/utils/LocTimer.cpp:355-390 | None of the timers so popped is early, to the nanosecond, iff the top found was due to the second and no timer of the heap falls later within that second |
| TimerEarly.RunTraced | gps/utils/LocTimer.cpp:281-470 | Every armed fd, reported event and queued expiry goes back to the system call that armed the fd and the report |
| TimerEarlyRuns.RemovedAfterReportFiresEarly | gps/utils/LocTimer.cpp:310-381 | A run in which the fd is reported for a timer that is due and running, that timer is stopped after the report, the worker handles nothing but its remove since, and the expiry then calls back another timer four seconds early |
| TimerEarlyRuns.RemovedBeforeReportFiresEarly | gps/utils/LocTimer.cpp:281-381 | A run in which the fd of an emptied container is reported, the worker handles nothing but a push since (no remove, no other expiry), and the expiry then calls back the timer just pushed, four seconds early |
| TimerCore.NeverEarlyIff | gps/utils/LocTimer.cpp:355-390 | No timer of the batch is early iff the top is due to the second and no timer falls later within the current second |
| LocTimerContainers.LocTimerContainer.GetSoonestTimer | gps/utils/LocTimer.cpp:272-274 | The top of the heap, or none |
| LocTimerContainers.LocTimerContainer.UpdateSoonestTime | gps/utils/LocTimer.cpp:281-306 | Makes exactly the epoll and timerfd calls UpdateCalls says |
| LocTimerContainers.LocTimerContainer.ProcPush | gps/utils/LocTimer.cpp:317-321 | Heap and kernel calls of the push message, as PushMsg says |
| LocTimerContainers.LocTimerContainer.ProcRemove | gps/utils/LocTimer.cpp:334-346 | Heap and kernel calls of the remove message, as RemoveMsg says |
| LocTimerContainers.LocTimerContainer.PopIfOutRanks | gps/utils/LocTimer.cpp:383-390 | Pops iff the top's second is not after now's |
| LocTimerContainers.LocTimerContainer.ProcExpire | gps/utils/LocTimer.cpp:360-374 | The expiry loop terminates, expires exactly the batch in order, and re-arms for what is left |
| TimerConservation.ClientConserves | gps/utils/LocTimer.cpp:542-575 | Every client step keeps starts = client stops + expiry stops + running, and expiry stops = callbacks |
| TimerConservation.WorkerConserves | gps/utils/LocTimer.cpp:515-527 | So does every worker step |
| TimerWakeup.ClientAwake | gps/utils/LocTimer.cpp:542-575 | No client step, at any point of the worker's or the poll thread's system calls, breaks the wake-up invariant |
| TimerWakeup.PollAwake | gps/utils/LocTimer.cpp:376-470 | No poll thread step does |
| TimerWakeup.WorkerAwake | gps/utils/LocTimer.cpp:281-390 | No worker step does |
| TimerLifetime.ClientLives | gps/utils/LocTimer.cpp:475-575 | Every client step keeps each delegate in exactly one stage of its life |
| TimerLifetime.WorkerLives | gps/utils/LocTimer.cpp:310-374 | So does every worker step |
| TimerLifetime.PollLives | gps/utils/LocTimer.cpp:376-470 | So does every poll thread step |
| LocSharedLocks.LocSharedLock.Share | gps/utils/LocSharedLock.h:47 | One user more |
| LocSharedLocks.LocSharedLock.Drop | gps/utils/LocSharedLock.h:49 | One user less; the lock is deleted iff that was the last |
| LocSharedLocks.ExactIffNothingBetween | gps/utils/LocSharedLock.h:47-49 | With reading and writing mRef as separate steps: a call that read an exact count and writes over one leaves it exact iff the calls that ended between its read and its write add up to nothing |
| LocSharedLocks.NoOverlapIsExact | gps/utils/LocSharedLock.h:47-49 | Calls that do not overlap keep the count exact in every run and delete the lock exactly when its last user goes |
| LocSharedLocks.LostShareExample | gps/utils/LocSharedLock.h:47-49 | A run in which the worker's drop overwrites a client's share, and the lock is deleted while a user is left |
| TimerLocks.ClientLocks | gps/utils/LocSharedLock.h:42-51 | Every client step keeps the shared lock's count at undeleted delegates plus one for a live client |
| TimerLocks.WorkerLocks | gps/utils/LocSharedLock.h:42-51 | So does every worker step |
| TimerSafety.StepInv | gps/utils/LocTimer.cpp:281-575 | Every step of every thread and of the clock keeps all four invariants |
| TimerSafety.RunInv | gps/utils/LocTimer.cpp:281-575 | They hold in every state of every run |
| TimerCalls.StartSends | gps/utils/LocTimer.cpp:542-559 | In every run, start() on a timer that is not running appends exactly the push of a new delegate for that timer and kind, due the asked delay after now to the nanosecond; on a running one it does nothing |
| TimerCalls.StartRuns | gps/utils/LocTimer.cpp:542-559 | When that start() returns, whatever others have done meanwhile, the timer is running with that delegate and has one successful start more |
| TimerCalls.StopStops | gps/utils/LocTimer.cpp:485-501 | In every run, stop() on a running timer clears mTimer and the delegate's client pointer at once; on one that is not running it does nothing |
| TimerCalls.StopReturns | gps/utils/LocTimer.cpp:562-575 | When that stop() returns it has appended exactly the remove of that delegate and won one stop more |
| TimerCalls.StoppedStaysStopped | gps/utils/LocTimer.cpp:515-575 | A stopped timer stays stopped until started again: no expiry wins a stop of it, and it is called back at most for one that had won before |
| TimerCalls.ExpiryCallsBack | gps/utils/LocTimer.cpp:515-527 | In every run, an expiry leaves alone a timer whose client pointer is cleared or that is not running, and otherwise stops it, sends the remove and makes the callback |
| TimerCalls.PollReports | gps/utils/LocTimer.cpp:446-460 | The poll thread is told of due fds of its set only, and goes through exactly those |
| TimerCalls.PollExpires | gps/utils/LocTimer.cpp:376-381 | expire() disarms the container's fd, takes it out of the epoll set, and appends the expiry message, in this order, touching no other container |
| TimerCalls.MessagesAct | gps/utils/LocTimer.cpp:310-374 | A push message adds its delegate to the heap of its kind, a remove message takes just that one out and deletes it after, an expiry message pops the top at the current time |
| TimerCalls.SystemCallsAct | gps/utils/LocTimer.cpp:281-346 | Each system call of the worker has its effect on its container's fd, none on the other |
| TimerCalls.TimerComesAndGoes | gps/utils/LocTimer.cpp:531-540 | A new timer is idle with one lock reference; destroying it drops one |
| TimerCalls.CallsAreOpen | gps/utils/LocTimer.cpp:446-575 | start() and stop() are open to every living timer whose lock is free and can return, every due fd in the set can be reported, and expire() can go through |
| TimerSafety.NoLostWakeup | gps/utils/LocTimer.cpp:281-470 | Whenever the worker is done with a container's kernel calls and timers wait in it, either an expiry is on its way or the fd is in the epoll set, armed for exactly the top, which is the soonest to the second |
| TimerSafety.StartsConserved | gps/utils/LocTimer.cpp:515-575 | For each timer, successful starts = client stops that returned true + stops won by expiry + one if running; each stop won by expiry has exactly one callback |
| TimerSafety.DelegateLife | gps/utils/LocTimer.cpp:310-350 | Each delegate is pushed exactly once and deleted at most once, passes through exactly one stage at a time, and is never lost while active |
| TimerSafety.NothingDangles | gps/utils/LocTimer.cpp:310-350 | No heap, message or worker refers to a deleted delegate; no heap holds one twice; its remove message follows its push |
| TimerSafety.LockLifetime | gps/utils/LocSharedLock.h:42-51 | The shared lock's count reaches zero exactly when the client and all its delegates are gone |
| TimerSafety.WorkerProgress | gps/utils/LocTimer.cpp:515-527 | The worker uses only live timers and is stuck only on an empty queue or a lock a client thread holds |
| TimerSafety.ExpiryStopsItsOwn | gps/utils/LocTimer.cpp:515-527 | An expiry's stop() stops the expired delegate iff nobody has stopped that one since; else it stops what has been started since |
| TimerRestart.RestartedTimerFiresEarly | gps/utils/LocTimer.cpp:515-575 | A run in which a timer is stopped and restarted for a second later while its expiry is under way, and is called back at once |
| BufferPool.FirstFit | camera/QCamera2/HAL/QCameraMem.cpp:505-534 | The pooled buffer found is the first of its list with at least the size and the same heap and cache setting |
| BufferPool.AcquireKeeps | camera/QCamera2/HAL/QCameraMem.cpp:552-572 | An allocation hands out exactly what pool and device then lack, and nothing if it fails |
| BufferPool.AcquireFits | camera/QCamera2/HAL/QCameraMem.cpp:321-376 | A buffer handed out, pooled or new, fits the request |
| BufferPool.AcquireOutcome | camera/QCamera2/HAL/QCameraMem.cpp:321-572 | An allocation takes the first fitting buffer of its own stream type's list, and only if there is none asks the device, for whole pages and less than a page too many; other lists stay |
| BufferPool.AcquireAllKeeps | camera/QCamera2/HAL/QCameraMem.cpp:241-283 | alloc fills the slots with exactly what left the pool; if it fails the pool has got back its buffers and those that were live before as well |
| BufferPool.AcquireAllFits | camera/QCamera2/HAL/QCameraMem.cpp:241-283 | The new slots fit the request and the old ones stay |
| BufferPool.HandsOutFitting | camera/QCamera2/HAL/QCameraMem.cpp:241-283 | alloc refuses iff the table would overflow; a success leaves the live slots where they were and adds count fitting ones |
| BufferPool.AcquireAllSucceedsIff | camera/QCamera2/HAL/QCameraMem.cpp:241-283 | alloc's loop succeeds iff the device grants as many buffers as the request has fewer fitting ones in its pool list |
| BufferPool.OutcomeIff | camera/QCamera2/HAL/QCameraMem.cpp:241-283 | So each of the three return codes can be told from the state before |
| BufferPool.DeallocateReturnsHome | camera/QCamera2/HAL/QCameraMem.cpp:295-304 | deallocate puts the slots behind what the list of the stream's own type held, in order, changes no other list, and leaves no slot live |
| BufferPool.FailedAllocReturnsHome | camera/QCamera2/HAL/QCameraMem.cpp:241-283 | A failed alloc leaves in that list what it held, the slots there were, and every buffer made for the call; other lists and the stream stay |
| BufferPool.AllocGives | camera/QCamera2/HAL/QCameraMem.cpp:856-895 | A successful allocateMore keeps the live slots and adds count that fit; allocate leaves the first count, on a stream without live slots all new |
| BufferPool.ClearEmpties | camera/QCamera2/HAL/QCameraMem.cpp:473-487 | clear leaves every list empty and has given the device back all they held |
| BufferPool.RoundTrip | camera/QCamera2/HAL/QCameraMem.cpp:241-304 | What a stream has given back it gets again: deallocate n slots that fit a request and allocate n for it, and a device that refuses everything is not even asked |
| BufferPool.ReleaseUpKeeps | camera/QCamera2/HAL/QCameraMem.cpp:295-304 | dealloc gives the pool exactly the live slots |
| BufferPool.ReleaseDownKeeps | camera/QCamera2/HAL/QCameraMem.cpp:275-278 | So does the clean-up of a failed alloc |
| BufferPool.StepBalance | camera/QCamera2/HAL/QCameraMem.cpp:241-914 | The exact balance of every call and outcome: places after, less buffers made, differ from before by what the call loses or doubles |
| BufferPool.ConservedIffHarmless | camera/QCamera2/HAL/QCameraMem.cpp:856-914 | From a state with every buffer in one place, the next state is such a one iff the call is deallocate, clear, an allocation on a stream without live slots or beyond the table, or an allocateMore with enough fitting buffers in pool and device; all told before the call |
| BufferPool.RunConserves | camera/QCamera2/HAL/QCameraMem.cpp:241-914 | Over any run of such calls by any streams on one pool, each buffer ever made is in exactly one live slot, pool list or freed |
| BufferPoolThreads.SectionBalance | camera/QCamera2/HAL/QCameraMem.cpp:241-572 | The exact balance of every single section of the pool's lock, in the middle of a call too |
| BufferPoolThreads.AloneIsTheCall | camera/QCamera2/HAL/QCameraMem.cpp:241-895 | An allocation that nobody interrupts, section by section, is the whole call |
| BufferPoolThreads.AloneIsTheRelease | camera/QCamera2/HAL/QCameraMem.cpp:295-914 | So is a deallocate |
| BufferPoolThreads.StepConservesIff | camera/QCamera2/HAL/QCameraMem.cpp:241-572 | With the calls of different streams interleaved buffer by buffer, a step keeps every buffer in one place iff it is neither the end of an allocate on live slots nor the release of a live slot by a clean-up |
| BufferPoolThreads.RunConserves | camera/QCamera2/HAL/QCameraMem.cpp:241-914 | Over any interleaving without such a step each buffer ever made is in exactly one place, in-flight slots included |
| BufferPoolThreads.EmptyBeginsAreHarmless | camera/QCamera2/HAL/QCameraMem.cpp:241-914 | No such step ever comes if allocations begin only on streams without live slots, whatever the device grants and however the threads interleave |
| BufferPool.FailedMoreOwnsTwice | camera/QCamera2/HAL/QCameraMem.cpp:883-895 | After a failed allocateMore every live buffer of the stream is in exactly two places |
| BufferPool.LiveSlotsExample | camera/QCamera2/HAL/QCameraMem.cpp:856-895 | A pool and a stream on which allocateMore doubles a buffer and allocate drops one |
| BufferPool.QCameraMemoryPool.FindBufferLocked | camera/QCamera2/HAL/QCameraMem.cpp:505-534 | Takes the first fit out of its list and nothing else |
| BufferPool.QCameraMemoryPool.AllocateBuffer | camera/QCamera2/HAL/QCameraMem.cpp:552-572 | Pool and result as Acquire says |
| BufferPool.QCameraMemoryPool.ReleaseBuffer | camera/QCamera2/HAL/QCameraMem.cpp:453-462 | The buffer joins the end of its stream type's list |
| BufferPool.QCameraMemoryPool.Clear | camera/QCamera2/HAL/QCameraMem.cpp:473-487 | All lists emptied, each buffer freed once, in order |
| BufferPool.QCameraStreamMemory.Alloc | camera/QCamera2/HAL/QCameraMem.cpp:241-283 | Slots, pool and return code as Filled says |
| BufferPool.QCameraStreamMemory.Allocate | camera/QCamera2/HAL/QCameraMem.cpp:856-868 | Stream and pool as Allocated says: the count becomes the requested one |
| BufferPool.QCameraStreamMemory.AllocateMore | camera/QCamera2/HAL/QCameraMem.cpp:883-895 | Stream and pool as AllocatedMore says: the count grows |
| BufferPool.QCameraStreamMemory.Deallocate | camera/QCamera2/HAL/QCameraMem.cpp:906-914 | All live slots released in order and none left |
| Gralloc.OneOwner | camera/QCamera2/HAL/QCameraMem.cpp:1306-1342 | What the invariant means: a buffer is with the window iff no slot holds it flagged OWNED, and at most one slot names it |
| Gralloc.DisplayKeeps | camera/QCamera2/HAL/QCameraMem.cpp:1306-1342 | Every outcome of displayBuffer keeps the invariant; it refuses iff the slot is not in use or the window has its buffer; it returns an index iff a buffer came back, namely that buffer's; exactly those two buffers change hands |
| Gralloc.DequeueAllEnds | camera/QCamera2/HAL/QCameraMem.cpp:1418-1513 | allocate's loop ends with every buffer taken or with every buffer given back |
| Gralloc.CancelFirstKeeps | camera/QCamera2/HAL/QCameraMem.cpp:1518-1524 | Handing back the first min-undequeued buffers keeps the invariant and flags exactly the rest |
| Gralloc.AllocateOwns | camera/QCamera2/HAL/QCameraMem.cpp:1357-1529 | A successful allocate, over any earlier state, establishes the invariant with exactly the buffers from min-undequeued on OWNED; a failed one leaves every buffer with the window, unless the window refuses at once, which moves none |
| Gralloc.AllocateTakesTheAnswers | camera/QCamera2/HAL/QCameraMem.cpp:1418-1516 | After a successful allocate slot i names the buffer that the i-th dequeue gave |
| Gralloc.FailedAllocateLeaves | camera/QCamera2/HAL/QCameraMem.cpp:1357-1447 | allocate succeeds iff setup and every dequeue do; a failed one leaves each handle and flag as said: cleared up to the failing turn, else as before but for that turn's flag |
| Gralloc.AllocateKeepsIff | camera/QCamera2/HAL/QCameraMem.cpp:1357-1529 | allocate keeps the invariant iff there are no buffers yet, the window refuses at once, every dequeue succeeds, or set_buffer_count brings back exactly the table's buffers, none flagged (slot 0 apart if its dequeue fails), and no dequeue succeeds |
| Gralloc.FailedReallocationExample | camera/QCamera2/HAL/QCameraMem.cpp:1370-1447 | Two allocates over a live buffer got by a first allocate, that fail: one leaves its slot OWNED for a handle the window no longer has, the other leaves it empty under the old count |
| Gralloc.DeallocateReturns | camera/QCamera2/HAL/QCameraMem.cpp:1559-1586 | deallocate returns every buffer to the window |
| Gralloc.RegFlagsAgree | camera/QCamera2/HAL/QCameraMem.cpp:1620-1628 | Right after allocate getRegFlags says 1 for exactly the OWNED buffers |
| Gralloc.StepInv | camera/QCamera2/HAL/QCameraMem.cpp:1306-1628 | Every call with every answer of the window keeps the invariant, an allocate iff it is safe as AllocateKeepsIff says |
| Gralloc.RunOwns | camera/QCamera2/HAL/QCameraMem.cpp:1306-1628 | After any run whose allocates are safe, as those without live buffers are, each buffer has one owner, and deallocate then returns them all |
| Gralloc.QCameraGrallocMemory.constructor | camera/QCamera2/HAL/QCameraMem.cpp:1240-1253 | No buffers, no flags |
| Gralloc.QCameraGrallocMemory.DisplayBuffer | camera/QCamera2/HAL/QCameraMem.cpp:1306-1342 | Flags, window and result as Display says |
| Gralloc.QCameraGrallocMemory.Allocate | camera/QCamera2/HAL/QCameraMem.cpp:1357-1529 | Flags, handles, window and result as Allocated says |
| Gralloc.QCameraGrallocMemory.Deallocate | camera/QCamera2/HAL/QCameraMem.cpp:1559-1586 | Flags and window as Deallocated says |
| Gralloc.QCameraGrallocMemory.GetRegFlags | camera/QCamera2/HAL/QCameraMem.cpp:1620-1628 | Writes RegFlags to the front of the array and nothing else |
| DeferredWork.RunInv | camera/QCamera2/HAL/QCamera2HWI.cpp:5941-6134 | Slots, queue, commands and waiters agree in every state of every interleaving |
| DeferredWork.SlotsExact | camera/QCamera2/HAL/QCamera2HWI.cpp:6091-6106 | With the lock free a slot is marked iff exactly one job has it: queued, executing, or given up as undoable |
| DeferredWork.NeverEmpty | camera/QCamera2/HAL/QCamera2HWI.cpp:5973-6046 | The worker never finds the queue empty after a job command |
| DeferredWork.QueueTakesTheJob | camera/QCamera2/HAL/QCamera2HWI.cpp:6091-6106 | A job goes last in the queue, with its command, in the first free slot; nothing happens if all are taken |
| DeferredWork.JobsInOrder | camera/QCamera2/HAL/QCamera2HWI.cpp:5973-6046 | In every run the worker begins the jobs in the order in which they were queued, always the oldest |
| DeferredWork.CommandsInOrder | camera/QCamera2/HAL/QCamera2HWI.cpp:5941-6134 | Commands are handled in order, priority ones first, each as what it is; a waiter that returns is no longer inside |
| DeferredWork.WaitWatchesTheJob | camera/QCamera2/HAL/QCamera2HWI.cpp:6120-6134 | A caller whose slot is marked waits for exactly the one job of that slot; any other goes at once |
| DeferredWork.WaitIsForTheJob | camera/QCamera2/HAL/QCamera2HWI.cpp:6120-6134 | waitDefferedWork returns only after that one job has finished, even if the slot has been reused |
| DeferredWork.JobFate | camera/QCamera2/HAL/QCamera2HWI.cpp:5973-6046 | A job that has left queue and worker is finished iff it could be done (known command, channel there), and given up otherwise |
| DeferredWork.DroppedForEver | camera/QCamera2/HAL/QCamera2HWI.cpp:5973-6046 | A job given up stays so, and its slot stays marked in every later state |
| DeferredWork.LostSlotExample | camera/QCamera2/HAL/QCamera2HWI.cpp:5973-6010 | A run in which a job without a channel is given up and its slot stays marked |
| DeferredWork.FinishFreesOneSlot | camera/QCamera2/HAL/QCamera2HWI.cpp:5973-6046 | Finishing a job frees its slot and no other |
| DeferredWaiters.FinishStrandsIff | camera/QCamera2/HAL/QCamera2HWI.cpp:6013-6018 | A finish leaves a thread asleep on a free slot iff a thread other than the one its signal wakes is asleep on the finished slot |
| DeferredWaiters.FinishMayStrandIff | camera/QCamera2/HAL/QCamera2HWI.cpp:6013-6018 | Some choice of the woken thread does so iff two threads are asleep, one of them on that slot |
| DeferredWaiters.OnlyFinishStrands | camera/QCamera2/HAL/QCamera2HWI.cpp:6091-6134 | No other step does |
| DeferredWaiters.OneWaiterIsSafe | camera/QCamera2/HAL/QCamera2HWI.cpp:6120-6134 | In runs with at most one thread at a time inside waitDefferedWork nobody is ever stranded |
| DeferredWaiters.SleepsUntilAFinish | camera/QCamera2/HAL/QCamera2HWI.cpp:6120-6134 | A thread asleep stays so until some job finishes |
| DeferredWaiters.StrandedExample | camera/QCamera2/HAL/QCamera2HWI.cpp:6013-6134 | A run that ends with the worker idle, nothing queued or sent, and one of two waiters asleep on a free slot |
| DeferredWork.QCamera2HardwareInterface.QueueDefferedWork | camera/QCamera2/HAL/QCamera2HWI.cpp:6091-6106 | Takes the first free slot, or returns -1 and changes nothing iff all are taken |
| DeferredWork.QCamera2HardwareInterface.AnswerCommand | camera/QCamera2/HAL/QCamera2HWI.cpp:5941-6056 | One round of the worker is its protocol steps in a row |
| DeferredWork.QCamera2HardwareInterface.MayReturn | camera/QCamera2/HAL/QCamera2HWI.cpp:6120-6134 | A waiter may go iff its id is out of range or its slot is unmarked; a valid id is then set out of range, so waiting twice is harmless |
| Notifier.RunInv | camera/QCamera2/HAL/QCamera2HWICallbacks.cpp:1642-1834 | Snapshot counting and the release ledger hold in every state of every interleaving |
| Notifier.DoneWhenReached | camera/QCamera2/HAL/QCamera2HWICallbacks.cpp:1741-1754 | A session raises SNAPSHOT_DONE exactly when its 32-bit count hits the expected number, never in longshot |
| Notifier.DoneAtMostOnceIff | camera/QCamera2/HAL/QCamera2HWICallbacks.cpp:1741-1754 | It does so at most once iff the count has not gone a whole 32-bit turn past that number, and at least once iff the number was positive and reached |
| Notifier.CountsSnapshots | camera/QCamera2/HAL/QCamera2HWICallbacks.cpp:1741-1754 | A callback counts, once, iff it is an enabled snapshot of a session that is not longshot, with a data callback set |
| Notifier.SessionKeepsItsTerms | camera/QCamera2/HAL/QCamera2HWICallbacks.cpp:1668-1675 | A session counts from zero, with the expected number and longshot setting of the start that began it, until the next start or stop |
| Notifier.SecondDone | camera/QCamera2/HAL/QCamera2HWICallbacks.cpp:1741-1754 | A reachable session that expects one snapshot and has raised SNAPSHOT_DONE twice |
| Notifier.QuietUntilStart | camera/QCamera2/HAL/QCamera2HWICallbacks.cpp:1668-1784 | In any run, nothing is raised from a session's stop to the next start |
| Notifier.ReleasedAtMostOnce | camera/QCamera2/HAL/QCamera2HWICallbacks.cpp:1594-1834 | Each accepted callback is pending, processed or flushed, once; it has been released, once, iff it has a release function and is no longer pending; nothing else is released |
| Notifier.StopDropsSnapshots | camera/QCamera2/HAL/QCamera2HWICallbacks.cpp:1618-1684 | In every run a stop takes exactly the pending snapshot callbacks out of the queue and releases those with a release function as failed; what stays and what goes keeps its order |
| Notifier.ExitDropsAll | camera/QCamera2/HAL/QCamera2HWICallbacks.cpp:1785-1790 | At the exit nothing stays pending, and each pending callback with a release function is released as failed |
| Notifier.JobTakesTheOldest | camera/QCamera2/HAL/QCamera2HWICallbacks.cpp:1685-1784 | A job command takes the oldest callback and releases it, if it has a release function, with the status its message type and its own type call for |
| Notifier.QueuesInOrder | camera/QCamera2/HAL/QCamera2HWICallbacks.cpp:1812-1900 | New callbacks and their commands go last, start, stop and exit commands first, and the thread takes the first |
| Notifier.NoneStranded | camera/QCamera2/HAL/QCamera2HWICallbacks.cpp:1685-1834 | Until the thread exits, job commands queued or about to be sent = pending callbacks + flushed ones whose command is still to come; so no pending callback is without a command, and once all are handled the queue is empty |
| Notifier.SurplusJobHarmless | camera/QCamera2/HAL/QCamera2HWICallbacks.cpp:1685-1784 | In any run, a job command that finds no callback is that of a flushed one, and does nothing but go away |
| Notifier.QCameraCbNotifier.NotifyCallback | camera/QCamera2/HAL/QCamera2HWICallbacks.cpp:1812-1834 | Queues the callback and then its job command iff the notifier is active |
| Notifier.QCameraCbNotifier.StartSnapshots | camera/QCamera2/HAL/QCamera2HWICallbacks.cpp:1883-1886 | Queues the start command ahead of all others |
| Notifier.QCameraCbNotifier.StopSnapshots | camera/QCamera2/HAL/QCamera2HWICallbacks.cpp:1897-1900 | Queues the stop command ahead of all others |
| Notifier.QCameraCbNotifier.Exit | camera/QCamera2/HAL/QCamera2HWICallbacks.cpp:1577-1581 | Turns new callbacks away and queues the exit command ahead of all others |
| Notifier.QCameraCbNotifier.Flush | camera/QCamera2/util/QCameraQueue.cpp:224-293 | Drops exactly the matching nodes, in order, releasing each that has a release function |
| Notifier.QCameraCbNotifier.HandleNextJob | camera/QCamera2/HAL/QCamera2HWICallbacks.cpp:1685-1784 | One job command moves counters, queue and releases as Next says |
| Notifier.QCameraCbNotifier.HandleCommand | camera/QCamera2/HAL/QCamera2HWICallbacks.cpp:1642-1798 | So does every command |
| AdapterTable.UnionExact | gps/core/LocApiBase.cpp:137-144 | An event is in the posted union iff some adapter asks for it |
| AdapterTable.AddExact | gps/core/LocApiBase.cpp:159-169 | Add is idempotent, keeps everyone else, and drops the adapter only when the table is full |
| AdapterTable.RemoveExact | gps/core/LocApiBase.cpp:171-205 | Remove deletes exactly that adapter and keeps the set of the others, without duplicates |
| AdapterTable.RunDistinct | gps/core/LocApiBase.cpp:159-205 | Over any run of adds and removes: no duplicates, at most ten |
| AdapterTable.LocApiBase.GetEvtMask | gps/core/LocApiBase.cpp:137-144 | The union of the adapters' masks less the excluded bits |
| AdapterTable.LocApiBase.UpdateEvtMask | gps/core/LocApiBase.cpp:207-210 | Posts that mask |
| AdapterTable.LocAdapter.UpdateEvtMask | gps/core/LocAdapterBase.h:72-79 | The adapter's bits change, and what is posted is the union with the new ones |
| AdapterTable.LocApiBase.AddAdapter | gps/core/LocApiBase.cpp:159-169 | In place, no holes; opens with the new adapter's mask iff it was added |
| AdapterTable.LocApiBase.RemoveAdapter | gps/core/LocApiBase.cpp:171-205 | In place, no holes; closes iff the last adapter left, else reopens with the mask of what is left |
| AdapterTable.LocApiBase.LastUsed | gps/core/LocApiBase.cpp:184-188 | The inner scan finds the last used entry |
| AdapterTable.LocApiBase.Compact | gps/core/LocApiBase.cpp:182-194 | That entry moves to the freed place, the case of one and the same place included |
| SplitString.SplitRoundTrip | gps/utils/loc_misc_utils.cpp:38-76 | The count is the lesser of the limit and one plus the delimiters; no piece holds the delimiter; joining gives the string back iff the limit did not cut it short, else the prefix before the delimiter it stopped at |
| SplitString.SplitInPlace | gps/utils/loc_misc_utils.cpp:38-76 | In place, the pointers filled in stand for exactly those pieces |
| SplitString.TrimInPlace | gps/utils/loc_misc_utils.cpp:78-114 | In place, the string loses its leading and trailing space, unless it is nothing but space |
| SplitString.SpaceIs | gps/utils/loc_misc_utils.cpp:78-114 | What counts as space is what isspace does in the C locale: six characters |
| SplitString.TrimsIff | gps/utils/loc_misc_utils.cpp:78-114 | The result is the trimmed string iff there is something besides space, or nothing at all |
| SplitString.SpacesStay | gps/utils/loc_misc_utils.cpp:78-114 | Two spaces are such an input |

## Left out

Across the model:

- Kernel and POSIX calls themselves (timerfd, epoll, pthreads, ION, mmap): abstract state and step relations stand for them.
- Memory-allocation failure, checks for NULL handles and parameters, logging, file dumping, and the modules beside these (`lights.c`, `audio_amplifier.c`, `loc_target.cpp`, `loc_cfg.cpp`, `releasetools.py`): single branches, or input and output only.
- Methods such as `PopLeft`, `SwapDown`, `Sink`, `RemoveBelow`, `TakeOut`, `Compact`, `LastUsed`, `ReleaseFrom`, `FreeList`, `UndoAllocate`, `CancelMinUndequeued`, `TakeNext`, `BeginSession`, `EndSession` and `Leave` are parts of one source method each, split off to keep proofs small.
- Threads: classes carry the sequential methods; interleavings are state machines on values, in which each critical section, message or shared access is one step. `LocThreadDelegate`, `LocTimer`, `LocTimerDelegate` and `LocTimerPollTask` appear only there, as records of the state.
- Fairness and liveness: no claim that a waiting thread is ever scheduled.

GPS utilities:

- LocHeaps.LocHeapNode.Pop: returns the new top instead of updating a reference to it, as does Remove; `detachData` and node deletion are left to garbage collection.
- LinkedLists.LinkedList.Flush: deallocator calls are recorded in a list rather than made; `linked_list_init` and `linked_list_destroy` (a flush and a free) are not modelled.
- MsgQueues.MsgQ.ReceiveEnter: `pthread_cond_wait` splits `msg_q_rcv` into two steps, and any waiting thread may wake up at any time (`MsgQueueWakeup` tells who has been woken); `msg_q_destroy` is not modelled.
- MsgTasks.MsgTask.Destroy: deleting the thread object, or the task itself when there is none, is not modelled; nor is the destructor's flush.
- MsgTasks.MsgTask.Run: `prerun`, which sets a scheduling policy, and the deletion of the message are not modelled.
- LocThread.RunInv: a runnable that stops or deletes its own `LocThread` from inside `run()`, and the mutex around the decrement, which is one atomic step here.
- TimerSafety.RunInv: a `LocTimer` is destroyed only while it is not running and the worker holds no pointer to it on its stack; `expire` reads the client pointer without the lock, so destruction during an expiry is not covered. `share` and `drop` are atomic here; `LocSharedLocks` takes them apart.
- TimerCore.RankingOk: differences of seconds are taken to fit an `int`.
- `LocTimerWrapper` and its C functions, `timerfd_create` failure and the fallback to another clock, and the end of the poll thread when its epoll fd is closed.
- TimerSafety.NoLostWakeup: the epoll set and the timerfd are as documented for level-triggered polling of an absolute timer; a call on them does not fail, except adding a present fd or removing an absent one, which changes nothing.
- AdapterTable.LocApiBase.GetEvtMask: a 32-bit mask is the set of its bits. Session state, message handling and the reporting functions of `LocApiBase` are dispatch only.
- SplitString.SplitInPlace: piece pointers are offsets into the buffer.

Camera HAL:

- BufferPool.RunConserves: calls of different streams are atomic here; `BufferPoolThreads.RunConserves` interleaves them buffer by buffer.
- BufferPoolThreads.RunConserves: the calls on one stream follow each other, as one thread makes them. Buffer counts and sizes are unbounded naturals. File descriptors, `mCameraMemory` handles, stream memory without a pool, heap and video memory, and cache operations are not modelled.
- BufferPool.AcquireFits: the failure of ION open, allocation or sharing is one outcome, "no buffer".
- Gralloc.AllocateOwns: failures of ION open and import inside `allocate`, which do not return every buffer, are not modelled, nor is a NULL window or a failing `cancel_buffer`.
- Gralloc.QCameraGrallocMemory.DisplayBuffer: the index is one of the table's, and a flagged slot has a handle.
- Gralloc.QCameraGrallocMemory.Allocate: count and min-undequeued are within the tables of 24, which the code does not check.
- DeferredWaiters.FinishStrandsIff: a signal wakes exactly one thread, and threads do not wake without one, which would rescue a stranded one.
- DeferredWork.WaitIsForTheJob: nothing is claimed about when a wait ends, beyond `DeferredWaiters`. The work itself, a missing channel when post-processing starts, and failing `enqueue` or `sendCmd` are not modelled.
- Notifier.ReleasedAtMostOnce: `QCameraQueue` is a sequence and `QCameraCmdThread` a stream of commands; delivery to the application's callbacks, the join in `exit`, callbacks accepted after the thread has exited, and a failing `enqueue` or `sendCmd` are not modelled.
- The rest of `QCamera2HWI.cpp` and `QCamera2HWICallbacks.cpp`.

# Verified model of the Hazel Wireless kernel layer

This project models the parts of the operating-system abstraction layer that carry
real invariants, and proves what they guarantee under every interleaving of their
callers:

- the FreeRTOS mutex with recursive ownership, deadlock detection and transitive
  priority inheritance, together with the priority-ordered wait queues;
- the work queue: immediate and delayable items, cancellation, flushing, draining,
  plugging and stopping, over any number of queues and items;
- the message queue, the block allocator, the FIFO, the intrusive list below all of
  them, and the conversions between milliseconds and ticks.

## How it is built

Code that changes objects in place is modelled twice. A class has the fields of the C
structure, and its methods make the field updates of one critical section; each
method is proved to take the fields (read off as one value by `View()`) to where a
specification function takes them. The lemmas are about those functions. A critical
section is one atomic step; everything between two critical sections of a call is a
place where any other thread may run.

| File | Contents |
|---|---|
| `MachineInts` | the limits of the C integer types |
| `Lists`, `Dlist` | list operations on sequences; the pointer ring that refines them |
| `Objects`, `ThreadQueue`, `WaitGraph` | threads, mutexes, wait queues; sorted insertion; the wait-for graph |
| `MutexSpec`, `MutexBackend` | the mutex critical sections as functions, and on the objects |
| `MutexInvariants`, `MutexSteps`, `MutexRuns` | what each step keeps, and safety of whole runs |
| `MutexAnswers` | what mutex and wait-queue calls answer and leave behind, read off queues and the wait-for graph |
| `InheritanceLaw`, `PriorityInheritance`, `InheritanceRuns`, `BargingRun` | priority inheritance: its equations, the chain walk, whole runs, and a run that breaks it |
| `WorkObjects`, `WorkSpec`, `WorkBackend` | items and queues; the critical sections as functions, and on the objects |
| `WorkWorld`, `WorkInvariants`, `WorkHistory`, `WorkRuns`, `WorkGuarantees` | interleavings with a log; coupling; what the log says; whole runs |
| `WorkAnswers` | what work calls answer and leave behind, read off lists, workers and gates |
| `WorkFlush`, `WorkStop`, `WorkDrain` | what flushing, stopping, plugging and draining guarantee, and exactly where they do not |
| `WorkPromotion`, `WorkDeadlines` | wrapped 32-bit deadlines against unbounded time: what promotion does with due items, and that delays are kept over whole runs |
| `Semaphore`, `MessageQueue`, `MemSlab`, `Fifo` | the containers and their tokens |
| `TimeConversion` | ticks and milliseconds in 64-bit arithmetic |

## Where the code falls short of a promise

- Taking a free mutex recomputes no priority. `TakenInStepIff` gives the exact
  condition under which inheritance survives, `BargingFails` a run on which it does not.
- `os_work_flush` returns on reading its target as the completion number, and some numbers
  are never shown. `FlushReturnsIff` says exactly which still can be: the latest
  submission, and the one running. A submission cancelled while its item runs is passed by
  once the item is submitted again (`FlushSkips`, `FlushSkipsReached`); until then a flush
  of the idle item waits for a further cancel (`FlushIdle`, `FlushIdleReached`).
- A plugged and drained queue can still receive the item a promotion had already
  unlinked. `PlugFinalIff` gives the exact condition, `PlugLeaksReached` a run to the case.
- `os_ticks_to_ms` is documented as saturating, but its last addition can wrap.
  `TicksToMsExact` gives the exact window, `WrapExample` an input. The model follows the code.
- The wrapped remaining time of a delayed item is right exactly under the condition in
  `RemainingExact`; `RemainingWrong` has a deadline on either side of it.
- A recursion count at its 32-bit limit wraps, and the owner can no longer release:
  `RecursionLimit`, `RecursionLimitReached`.
- Moving a stretch to the end of its own list where it already is leaves pointers that
  form no ring: `RangePrepend`, `RangeAppend`.

## Model

| member | source | states |
|---|---|---|
| Dlist.Init | include/hazel_wireless/sys/dlist.h:202-206 | an initialised sentinel is the ring of the empty sequence |
| Dlist.Append | include/hazel_wireless/sys/dlist.h:412-421 | the ring becomes the sequence with the node at its end |
| Dlist.Prepend | include/hazel_wireless/sys/dlist.h:432-441 | the ring becomes the sequence with the node at its front |
| Dlist.Insert | include/hazel_wireless/sys/dlist.h:451-459 | the node lands just before the given successor, order otherwise kept, whichever position that is |
| Dlist.Remove | include/hazel_wireless/sys/dlist.h:527-535 | exactly that node leaves the sequence and is marked unlinked |
| Dlist.Get | include/hazel_wireless/sys/dlist.h:609-619 | the head leaves; an empty list gives nothing and is unchanged |
| Dlist.RangePrepend | include/hazel_wireless/sys/dlist.h:550-567 | a stretch moves to the front of another list, both remaining rings of the sequences expected, or of its own list unless it is at the front already, when no ring is left |
| Dlist.RangeAppend | include/hazel_wireless/sys/dlist.h:580-597 | a stretch moves to the end of another list, both remaining rings of the sequences expected, or of its own list unless it is at the end already, when no ring is left |
| Dlist.Len | include/hazel_wireless/sys/dlist.h:628-637 | iteration meets each node once, comes back to the sentinel, and counts the sequence |
| ThreadQueue.InsertSorted | src/osal_freertos/waitq.c:29-49 | insertion keeps non-increasing priority and is stable: behind all of at least its priority, before all below |
| ThreadQueue.WithoutSorted | src/osal_freertos/mutex.c:96-97 | unlinking keeps the rest sorted even when the removed thread's priority has changed |
| WaitGraph.EdgeKeepsAcyclic | src/osal_freertos/mutex.c:160-179 | a new wait edge keeps the graph acyclic if and only if the owner does not already reach the waiter |
| MutexSpec.Highest | src/osal_freertos/mutex.c:48-64 | an upper bound of the scanned priorities and of the base priority that is one of them |
| MutexInvariants.DeadlockWalkExact | src/osal_freertos/mutex.c:102-118 | the walk allows waiting if and only if the owner chain ends within the budget and avoids the thread |
| MutexInvariants.ChainKeeps | src/osal_freertos/mutex.c:67-100 | the chain walk keeps every queue a sorted permutation of itself, whatever the chain length |
| MutexAnswers.LockAnswers | src/osal_freertos/mutex.c:144-180 | a lock attempt succeeds if and only if the mutex is free or the caller's own; on any other, each refusal and the wait is given exactly when the timeout, the time elapsed and the wait-for graph say so, with at most sixteen owners in the chain |
| MutexAnswers.LockLeaves | src/osal_freertos/mutex.c:156-181 | a refused attempt changes nothing; one that waits is queued on that mutex, and nobody else's waiting or holding changes |
| MutexAnswers.ResumeAnswers | src/osal_freertos/mutex.c:188-203 | back from its wait a locker retries if and only if somebody unlinked it, fails with -EAGAIN if it was notified all the same and with -ETIMEDOUT if not, and waits no more |
| MutexRuns.LockHolds | src/osal_freertos/mutex.c:144-155 | a lock either succeeds, with the caller as owner one level deeper, or leaves every ownership field alone |
| MutexRuns.LockBooked | src/osal_freertos/mutex.c:138-181 | any lock attempt keeps queues sorted and linked, ownership consistent, waiting acyclic, and every wake-up pending |
| MutexRuns.ResumeBooked | src/osal_freertos/mutex.c:188-203 | leaving the notification wait, on time-out or hand-over, keeps the same |
| MutexRuns.UnlockBooked | src/osal_freertos/mutex.c:229-260 | unlocking keeps the same |
| MutexSteps.UnlockWakesHighest | src/osal_freertos/mutex.c:243-256 | the waiter an unlock dequeues has the highest effective priority in the queue, and it alone is unlinked |
| MutexAnswers.PriorityTaken | src/osal_freertos/thread.c:303-305 | the requested base priority is taken over, nobody's waiting or holding changes, and the thread then runs at the highest of it and its direct waiters' priorities, so with no waiters at just that |
| MutexAnswers.PlainResorted | src/osal_freertos/thread.c:306-309 | on a plain queue the thread moves to where its new priority puts it: the queue is sorted if the rest of it was |
| MutexRuns.PriorityBooked | src/osal_freertos/thread.c:303-310 | changing a base priority keeps the same |
| MutexSteps.OwnerReleases | src/osal_freertos/mutex.c:230-237 | exactly the owner may release; the zero-count branch is never reached |
| MutexRuns.StepKeeps | src/osal_freertos/mutex.c:120-261 | every step of every thread keeps all invariants, the wake-up bookkeeping and the lock balance |
| MutexRuns.RunSafety | src/osal_freertos/mutex.c:120-261 | over every run: acyclic waiting, sorted queues, exact linking and ownership, and a free mutex with waiters always has a woken thread on its way |
| MutexRuns.RunExclusion | src/osal_freertos/mutex.c:144-155 | read off successful calls alone: no release without a lock, and no two threads hold a mutex |
| MutexRuns.RecursionLimit | src/osal_freertos/mutex.c:151-155 | the owner can release after one more lock if and only if the count was below its 32-bit limit |
| MutexRuns.RecursionLimitReached | src/osal_freertos/mutex.c:151-155 | from a quiet start 2^32-1 lock calls reach that limit, and one more leaves the owner unable to release |
| MutexAnswers.BlockLinks | src/osal_freertos/waitq.c:70-75 | entering a plain wait links the thread behind everyone of at least its priority and ahead of everyone below it |
| MutexAnswers.UnblockUnlinks | src/osal_freertos/waitq.c:81-93 | after leaving a plain wait the thread is in no queue, and the others keep their order |
| MutexAnswers.WakeOneHighest | src/osal_freertos/waitq.c:106-115 | waking one unlinks only the head, in a sorted queue a thread of the highest priority |
| MutexAnswers.WakeAllEmpties | src/osal_freertos/waitq.c:131-142 | waking all empties the queue and unlinks exactly those who were in it |
| InheritanceLaw.SettledIffInherited | src/osal_freertos/mutex.c:39-65 | on an acyclic graph the local maximum equations hold everywhere if and only if each priority is the highest base priority upstream |
| PriorityInheritance.ScanIsEffective | src/osal_freertos/mutex.c:39-65 | the nested scan over owned mutexes computes the maximum over exactly the threads waiting for this one |
| PriorityInheritance.CycleCheckIdle | src/osal_freertos/mutex.c:77-82 | on chains of any length the walk never meets a visited thread |
| PriorityInheritance.WalkUntested | src/osal_freertos/mutex.c:67-100 | hence the walk with the visited test is the walk without it |
| PriorityInheritance.ChainRepairs | src/osal_freertos/mutex.c:67-100 | at any chain length, if only the chain below a thread is out of date, the walk leaves at most the threads past the sixteenth out of date |
| PriorityInheritance.ChainRepair | src/osal_freertos/mutex.c:67-100 | and none when the chain fits the depth budget |
| InheritanceRuns.TakenInStepIff | src/osal_freertos/mutex.c:144-149 | taking a free mutex leaves all priorities right if and only if the queue is empty or the taker is no lower than its head |
| InheritanceRuns.StepInStep | src/osal_freertos/mutex.c:120-261 | each disciplined step leaves every thread at its effective priority |
| InheritanceRuns.RunInherits | src/osal_freertos/mutex.c:67-100 | after any disciplined run each thread runs at the highest base priority of itself and all threads transitively blocked on it |
| BargingRun.BargingFails | src/osal_freertos/mutex.c:144-149 | from every quiet start with two threads above a third, a five-step run leaves the third owning the mutex below a thread that queues for it |
| MutexBackend.Kernel.InsertPriority | src/osal_freertos/waitq.c:29-49 | the scan loop inserts where the sorted-insertion function says |
| MutexBackend.Kernel.ComputePriority | src/osal_freertos/mutex.c:39-65 | the two loops compute the effective priority |
| MutexBackend.Kernel.UpdatePiChain | src/osal_freertos/mutex.c:67-100 | the loop with its visited array performs the chain walk on the objects |
| MutexBackend.Kernel.WouldDeadlock | src/osal_freertos/mutex.c:102-118 | the loop decides the owner walk |
| MutexBackend.Kernel.LockAttempt | src/osal_freertos/mutex.c:138-181 | one pass through the locking loop changes the objects and answers as specified in all six cases (`LockAnswers` says which), and a call that blocks is told what is left of its timeout |
| MutexBackend.Kernel.LockResume | src/osal_freertos/mutex.c:188-203 | the section after the wait changes the objects and answers as specified |
| MutexBackend.Kernel.MutexUnlock | src/osal_freertos/mutex.c:229-260 | unlocking changes the objects and answers as specified, including hand-over and both refusals |
| MutexBackend.Kernel.SetThreadPriority | src/osal_freertos/thread.c:295-311 | base change, chain repair and re-sorting on a plain queue, on the objects (`PriorityTaken`, `PlainResorted`) |
| MutexBackend.Kernel.WaitqBlock | src/osal_freertos/waitq.c:70-75 | entering a plain wait, on the objects |
| MutexBackend.Kernel.WaitqUnblock | src/osal_freertos/waitq.c:81-93 | leaving a plain wait; a time-out if and only if the thread is still linked or the native wait delivered nothing, otherwise the reason delivered |
| MutexBackend.Kernel.WaitqWakeOne | src/osal_freertos/waitq.c:106-115 | the head, if any, is unlinked and nothing else changes |
| MutexBackend.Kernel.WaitqWakeAll | src/osal_freertos/waitq.c:131-142 | the loop unlinks every thread, head first |
| WorkInvariants.StepCoupled | src/common/work_queue.c:93-112 | every step of every caller and worker keeps flags, lists, workers, gates and ids coupled |
| WorkGuarantees.RunCoupling | src/common/work_queue.c:185-211 | over every run: QUEUED, DELAYED and RUNNING hold exactly where the item is linked once or running; CANCELING implies running and not queued; the count is the list length |
| WorkGuarantees.RunExclusion | src/common/work_queue.c:93-102 | no item is ever in the handlers of two workers |
| WorkGuarantees.RunExactlyOnce | src/common/work_queue.c:87-112 | each accepted submission is begun or cancelled while queued, never both and never twice, and nothing else is begun; each handler that began ended once or is running |
| WorkGuarantees.RunTally | src/common/work_queue.c:206-211 | the submission number is handler starts plus cancellations while queued plus one if queued |
| WorkGuarantees.RunNumbers | src/common/work_queue.c:100-111 | over every run: completion <= submission; RUNNING implies completion < running <= submission <= running + 1; QUEUED implies both others are below the submission number |
| WorkGuarantees.RunOrder | src/common/work_queue.c:87-118 | on each queue the handler starts followed by what is queued are the accepted submissions, in order, without those cancelled while queued |
| WorkHistory.DroppedOrder | src/common/work_queue.c:254-260 | cancelling takes exactly one submission out of the order, on every queue |
| WorkRuns.StepKeeps | src/common/work_queue.c:165-620 | every step keeps the coupling and the history |
| WorkAnswers.SubmitAnswers | src/common/work_queue.c:165-205 | a submission is accepted if and only if the item is usable, the queue takes work from this caller and has room, and the item is in no list, in no other worker's handler and not being cancelled; the answer says whether it runs, and each refusal has its exact condition |
| WorkAnswers.SubmitLeaves | src/common/work_queue.c:206-211 | an accepted item stands last in the list under the next number; any other submission changes nothing |
| WorkAnswers.CancelLeaves | src/common/work_queue.c:252-268 | a cancel takes the item out of every immediate list, others in order; an item in its handler is marked, any other is finished |
| WorkAnswers.ScheduleAnswers | src/common/work_queue.c:389-432 | a schedule goes ahead if and only if its arguments are valid, the queue takes work from this caller, nobody is cancelling the item and it waits nowhere; a reschedule needs not the last |
| WorkAnswers.ScheduleLeaves | src/common/work_queue.c:409-424 | going ahead moves the item from wherever it was delayed to the end of this queue's delayed list, or to none; any other call changes nothing |
| WorkAnswers.UndelayLeaves | src/common/work_queue.c:468-474 | cancelling a delay takes the item out of every delayed list, the others in order |
| WorkAnswers.StartLeaves | src/common/work_queue.c:141-162 | a start succeeds if and only if there is a stack, the queue is off and the native calls work, and then the queue is empty and takes work from everyone |
| WorkAnswers.UnplugLeaves | src/common/work_queue.c:557-567 | an unplug succeeds exactly on a started, plugged queue and opens it to outsiders unless it drains or stops |
| WorkAnswers.StopAnswers | src/common/work_queue.c:575-592 | a stop goes ahead if and only if the queue is started and plugged, its list is empty, no handler runs, and its own worker is not the caller |
| WorkFlush.StepMonotone | src/common/work_queue.c:109-111 | completion and submission numbers never go back |
| WorkFlush.SettledUpTo | src/common/work_queue.c:261-266 | every submission numbered up to the completion number has ended or been cancelled |
| WorkFlush.FlushSafety | src/common/work_queue.c:295-321 | when a flush sees its target, every submission made before it was called has ended or been cancelled |
| WorkFlush.FlushAtEnd | src/common/work_queue.c:108-113 | the end of a handler shows its own submission as the completion number, settled |
| WorkFlush.FlushReturnsIff | src/common/work_queue.c:295-321 | some run shows a flush its target if and only if the completion number equals it, or is below it and the target is the latest submission or the one running |
| WorkFlush.FlushIdle | src/common/work_queue.c:306-319 | a flush of an idle item with an unfinished number waits until somebody cancels the item or submits it again |
| WorkFlush.FlushIdleReached | src/common/work_queue.c:254-266 | such an item is reached: re-queued from its handler, cancelled, and finished |
| WorkFlush.FlushMissed | src/common/work_queue.c:309-319 | once the completion number is past the target, no later state shows the target |
| WorkFlush.FlushPassedBy | src/common/work_queue.c:254-266 | a step that passes a target by finds that submission cancelled before it began |
| WorkFlush.FlushSkips | src/common/work_queue.c:261-266 | re-queue, cancel, finish, submit, run: the completion number passes the cancelled submission unseen |
| WorkFlush.FlushSkipsReached | src/common/work_queue.c:206-211 | the starting point of that run is reachable from a fresh start |
| WorkStop.SealedRun | src/common/work_queue.c:185-191 | nobody, not even the worker or a promotion in flight, gets anything accepted, begun or delayed on a sealed queue |
| WorkStop.StopFinality | src/common/work_queue.c:581-592 | once stop has marked the queue, nothing more is accepted, begun or delayed on it until it is started again |
| WorkStop.StopReturns | src/common/work_queue.c:598-619 | a stop call that reaches its end returns success and leaves the queue off, with nothing queued or delayed there, then or later |
| WorkStop.PlugFinalIff | src/common/work_queue.c:522-551 | a plugged, drained queue accepts and begins nothing on any run without start or unplug if and only if its worker holds no usable item it unlinked before the plug |
| WorkStop.PlugFinality | src/common/work_queue.c:522-551 | the direction that promises silence |
| WorkStop.PlugLeaks | src/common/work_queue.c:53-64 | otherwise some run gets the held item accepted, whatever its flags, after the drain has reported an empty queue |
| WorkStop.PlugLeaksReached | src/common/work_queue.c:53-64 | that case is reached from a fresh start |
| WorkDrain.ReservedRun | src/common/work_queue.c:185-191 | over every run, until a step reopens it, a draining or plugged queue has nothing accepted, queued or delayed on it but by its own worker |
| WorkDrain.StepGates | src/common/work_queue.c:522-619 | which steps open and close each gate: draining ends only at a poll that finds the queue empty and idle or at a start, the plug only at an unplug or a start |
| WorkDrain.DrainShields | src/common/work_queue.c:530-536 | a drain call marks the queue draining, plugs it if and only if asked or plugged before, changes nothing else, and closes it to outsiders from there on |
| WorkDrain.DrainRunsDown | src/common/work_queue.c:537-550 | whatever outsiders do, all the draining queue has started or still has to start was accepted before |
| WorkPromotion.RemainingExact | src/common/work_queue.c:23-29 | the wrapped remaining time equals the real one if and only if the deadline is less than half a wrap ahead and not in the first half of a wrap behind |
| WorkPromotion.RemainingWrong | src/common/work_queue.c:23-29 | one tick more than half a wrap late looks like 2^31-1 ticks left; half a wrap ahead looks due |
| WorkPromotion.PromoteExact | src/common/work_queue.c:31-69 | promotion without interference ends with exactly the items not due at its last sample, in order, and returns the least time left, or forever if and only if none is left |
| WorkPromotion.PromoteSubmits | src/common/work_queue.c:53-64 | on an open queue with room the due items are submitted in the order in which they come off the delayed list: last in the immediate list, QUEUED, each under its next number, and no other item changes |
| WorkPromotion.PromoteBarred | src/common/work_queue.c:53-67 | on a plugged or stopping queue they only lose their DELAYED flag; lists and numbers stay |
| WorkPromotion.TakenSteady | src/common/work_queue.c:41-52 | while the clock stands still the due items come off in list order |
| WorkDeadlines.ScheduledAt | src/common/work_queue.c:421-424 | a scheduled item stands last in the delayed list with exactly its delay left, and the time read off its wrapped deadline is the real one up to half a wrap past it |
| WorkDeadlines.ScheduledPromotion | src/common/work_queue.c:31-69 | an item scheduled at some time for some delay leaves the list at no sample before the sum of the two, and has left once promotion ends with a sample at or after it |
| WorkDeadlines.NeverEarly | src/common/work_queue.c:421-424 | over every run without a reschedule or cancel of the item or a stop, on which the worker looks at times before the deadline only, the item stays delayed |
| WorkDeadlines.DueFound | src/common/work_queue.c:41-48 | a look at or after the deadline takes the item or one ahead of it that is due too |
| WorkSpec.FirstDue | src/common/work_queue.c:42-52 | the scan stops at the first due item and at no earlier one |
| WorkBackend.Kernel.SubmitToQueue | src/common/work_queue.c:165-215 | submission changes the objects and answers as specified, in all ten cases (`SubmitAnswers`, `SubmitLeaves`) |
| WorkObjects.Flags.Bits | include/hazel_wireless/kernel.h:300-305 | each bit of the mask tells one flag |
| WorkBackend.Kernel.CancelWork | src/common/work_queue.c:241-274 | cancellation changes the objects and returns the remaining flags |
| WorkBackend.Kernel.CancelDelayable | src/common/work_queue.c:460-479 | cancelling a delayable item takes it off the delayed list and then cancels it |
| WorkBackend.Kernel.ScheduleSection | src/common/work_queue.c:389-425 | the critical section of schedule and reschedule calls, with all refusals (`ScheduleAnswers`, `ScheduleLeaves`, `ScheduledAt`) |
| WorkBackend.Kernel.ScheduleWork | src/common/work_queue.c:382-432 | the whole call without interference, going on to submit at once for a zero delay |
| WorkBackend.Kernel.PromoteScan | src/common/work_queue.c:37-59 | the scan loop finds the first due item or the least time left, and unlinks the item |
| WorkBackend.Kernel.PromoteDelayed | src/common/work_queue.c:31-69 | the promotion loop terminates and does what the promotion function says (`PromoteExact`, `PromoteSubmits`, `PromoteBarred`) |
| WorkBackend.Kernel.PopWork | src/common/work_queue.c:86-105 | the worker takes the head: nothing, the stop marker, or an item it marks running |
| WorkBackend.Kernel.FinishWork | src/common/work_queue.c:108-112 | the section after the handler |
| WorkBackend.Kernel.QueueStart | src/common/work_queue.c:142-161 | refused without a stack or when started; otherwise the storage is zeroed, and the queue opens unless the FIFO or the thread cannot be created |
| WorkBackend.Kernel.QueueDrainBegin | src/common/work_queue.c:530-536 | draining begins, plugged if asked |
| WorkBackend.Kernel.QueueDrainPoll | src/common/work_queue.c:540-545 | draining ends exactly when the list is empty and no handler runs |
| WorkBackend.Kernel.QueueUnplug | src/common/work_queue.c:553-568 | unplugging, with both refusals |
| WorkBackend.Kernel.QueueStopMark | src/common/work_queue.c:575-592 | the stop marker goes in, or one of the three refusals comes back |
| WorkBackend.Kernel.ReleaseDelayed | src/common/work_queue.c:598-613 | the loop lets go of every delayed item and ends with an empty delayed list |
| WorkBackend.ReleaseAllExact | src/common/work_queue.c:598-613 | exactly the items of that list lose their DELAYED flag, and nothing else changes |
| WorkBackend.Kernel.QueueStopEnd | src/common/work_queue.c:614-619 | the queue is switched off once its list is empty |
| MessageQueue.PutAppends | src/common/message_queue.c:62-66 | with room, a put appends to the unread messages and overwrites none |
| MessageQueue.GetRemoves | src/common/message_queue.c:84-89 | a get takes the oldest message |
| MessageQueue.StepKeeps | src/common/message_queue.c:50-93 | takes, critical sections and gives of any callers keep tokens, callers in flight and ring in balance |
| MessageQueue.NeverBlockedInside | src/common/message_queue.c:58-91 | no give is lost to saturation, no getter inside finds the ring empty, no putter finds it full |
| MessageQueue.RunFifo | src/common/message_queue.c:50-93 | over every interleaving: tokens and callers in flight add up to the capacity, messages read are a prefix of messages written, the rest being in the ring, and with nobody on the way a get can start if and only if a message is unread, a put if and only if a slot is free |
| MessageQueue.Overwritten | src/common/message_queue.c:63-64 | writing the bytes of one slot changes that slot's message and no other |
| MessageQueue.MessageQueue.PutCopy | src/common/message_queue.c:62-67 | the byte copy and index update on the buffer are one put |
| MessageQueue.MessageQueue.GetCopy | src/common/message_queue.c:84-90 | the byte copy and index update deliver the oldest message and leave the buffer alone |
| MessageQueue.MessageQueue.constructor | src/common/message_queue.c:9-29 | initialisation leaves an empty ring with all spaces free |
| MemSlab.InRangeExact | src/common/mem_slab.c:87-94 | the address check passes exactly the addresses of blocks |
| MemSlab.ScanExact | src/common/mem_slab.c:101-108 | bounded by the number of free blocks, the scan finds an address if and only if it is on the chain |
| MemSlab.FreeExact | src/common/mem_slab.c:84-112 | a free succeeds if and only if the address is that of a live block: every double free and foreign pointer is refused |
| MemSlab.FreeReleases | src/common/mem_slab.c:101-115 | freeing a live block frees that one and no other; any other free changes nothing |
| MemSlab.AllocFresh | src/common/mem_slab.c:69-73 | an allocation never reads a NULL head, returns a block nobody holds, and makes live exactly that one |
| MemSlab.StepKeeps | src/common/mem_slab.c:56-115 | allocations, frees and client writes keep the chain over exactly the free blocks, accounted for by tokens and callers in flight |
| MemSlab.RunSlab | src/common/mem_slab.c:56-115 | the same over every run from initialisation, and with nobody on the way an allocation can start if and only if a block is free |
| MemSlab.MemSlab.constructor | src/common/mem_slab.c:20-35 | the initialisation loop chains all blocks in order |
| MemSlab.MemSlab.AllocUnlink | src/common/mem_slab.c:69-73 | the critical section on the memory words |
| MemSlab.MemSlab.FreeBlock | src/common/mem_slab.c:77-115 | checks, scan loop and relinking on the memory words, succeeding exactly on live blocks |
| Fifo.StepKeeps | src/common/fifo.c:51-100 | puts, gets and their token steps keep list, count, tokens and callers in balance |
| Fifo.PutAccepted | src/common/fifo.c:58-70 | a put is refused exactly for a node some FIFO holds and for a full list, changing nothing; otherwise the node goes to the end |
| Fifo.RunFifo | src/common/fifo.c:51-100 | over every interleaving: the balance holds below the limit, no give saturates, the -EAGAIN branch is unreachable, nodes leave in insertion order, and none is stranded |
| Fifo.Fifo.PutLink | src/common/fifo.c:58-70 | the critical section of a put, with both refusals |
| Fifo.Fifo.GetUnlink | src/common/fifo.c:89-99 | the critical section of a get always finds a node, the oldest |
| TimeConversion.MsToTicksExact | src/osal_freertos/time.c:3-17 | the result is the ceiling of ms times rate over 1000, capped at 2^32-2, and nothing overflows 64 bits on the way |
| TimeConversion.TicksToMsExact | src/osal_freertos/time.c:27-37 | the result is the floor capped at 2^64-1 if and only if the input is outside one narrow window at the top |
| TimeConversion.FastClockSaturates | src/osal_freertos/time.c:27-37 | at 1000 ticks a second or more the conversion always saturates correctly |
| TimeConversion.WrapExample | src/osal_freertos/time.c:36 | at 100 ticks a second a large count converts to 4 milliseconds |
| TimeConversion.Galois | src/osal_freertos/time.c:3-37 | waiting some milliseconds takes at most t ticks if and only if t ticks last at least that long |
| TimeConversion.RoundTrip | src/osal_freertos/time.c:3-37 | converting to ticks and back never shortens a wait that fits |

## Left out

- Arguments checked before a critical section: null pointers, calls from interrupts, the `initialized` flags and thread handles; the objects in play are taken to be valid. The validity of work items is modelled.
- Thread fields `state` and `wait_result`: written but never read by the modelled code. The native priority is a field, without the native upper limit, and a notification is a wake-up that may also be spurious.
- `os_thread_abort`, `os_mutex_deinit` and the other deinit calls: aborting a dequeued thread drops its retry, so the no-lost-wake-up claim is for runs without them.
- RunInherits: owner chains longer than 16 threads are outside it, because the walk stops there; queues stay sorted and waiting stays acyclic at any length, and `ChainRepairs` bounds what one walk leaves out of date. A boosted thread on a plain wait queue is not re-sorted by the code, so sortedness is claimed for mutex queues.
- StepKeeps: for the work queue, submission numbers are assumed below 2^32-1, because at wrap-around the code reuses numbers; and a queue is marked to stop once per start, because a second stop after a time-out appends the marker to a list no worker reads.
- The worker's semaphore: after a cancellation its tokens are only hints, so a worker may look at its list at any time in the model. Completion semaphores and yields are not modelled.
- The `started` flag is read just before the critical section in the code and inside it in the model; a submission that races with the end of a stop is refused either way, with a different error.
- PromoteExact: deadlines are assumed within half a wrap of every clock sample, as `RemainingExact` shows they must be; the same holds for the other promotion and deadline rows.
- PromoteSubmits: says what becomes of due items that only wait out their delay; one that is in use at that moment gets the answer `SubmitAnswers` gives.
- Termination of flush, synchronous cancel and drain, fairness of barging, and wake-up of workers: not guaranteed by this code alone.
- Plain and delayable work items are one class; the bit mask of flags is a record of four booleans. The `queued` mark inside a work item's list node repeats its QUEUED flag and is dropped.
- Lists in the mutex, work queue and FIFO models are sequences; `Dlist` shows that the pointer ring is one.
- The message queue and allocator constructors take layouts that initialisation has already accepted; the bytes of a block after its first word are not modelled.
- `os_uptime_get`, the signal, event and timer objects, the RT-Thread and Zephyr backends, atomics and byte-order helpers: thin or easy beside the rest.

# ISIX: a verified model of the kernel, the LZ coder, the small allocator, the timers and MD5

This project models the hard core of the ISIX real-time system in Dafny and proves what its
design promises.

* **The kernel** (`Kernel*.dfy`, `Lists.dfy`, `ListNodes.dfy`). The state is that of
  `struct isix_system` and the objects reachable from it: the ready list of priority nodes with its
  pool of 17, two time-ordered wait lists that change places when the 32-bit tick counter wraps,
  priority-sorted wait queues, recursive mutexes with priority inheritance, counting semaphores,
  condition variables, event groups, task creation, kill, suspend, resume and join. Every call runs
  inside a critical section, so it is one step; a call that blocks stops at the yield and its rest
  is another step. `KernelState` and `KernelCalls` hold the steps as functions that set a `bug`
  flag where the source panics or would corrupt a list. `KernelSystem` is an object that is updated
  in place, field by field and with the loops of the source over its lists, and `Perform` proves
  that it does those steps; its lists are sequences, and `ListNodes` proves for the linked nodes of
  `prv/list.h` that their operations are those on sequences. The main theorem is
  `KernelRun.EveryRunIsSafe`; `KernelResults`, `KernelExact`, `KernelFair`, `KernelNest`,
  `KernelHonest`, `KernelOrder`, `KernelStarts` and `KernelEffects` draw the consequences for every
  reachable state and every call, and `KernelBits` says what the event masks mean bit by bit. `KernelProgram` says what a run of a program is, for the runs that show a fault.
* **The image pipeline** (`Lz*.dfy`). Both LZ77 coders and the decoder of the host tool, the
  bounded decoder of the device, and the chunk framing between them.
* **The queue** under any interleaving (`Fifo.dfy`), its bytes (`FifoRing.dfy`), and its steps read
  off the runs of the kernel (`FifoKernel.dfy`).
* **The first-fit allocator** (`TinyAlloc.dfy`, `TinyHeap.dfy`), **the soft timers**
  (`SoftTimers.dfy`) with the runs of their worker (`SoftRuns.dfy`), and **MD5 streaming**
  (`Md5.dfy`).

Integers are unbounded in Dafny; tick arithmetic, the 32-bit sizes of the LZ coder, the allocator
and MD5, and the base-128 shifts are reduced modulo 2^32 where the source does it.

## Where the code does not do what it is for

Each of these has a concrete failing input or run, and an exact condition. The runs of the kernel
are runs of programs (`KernelProgram.Genuine`): main creates objects and tasks, the idle task makes
no calls, and a task makes one only while no more urgent task can run.

* EOK from a blocked call cannot always be believed. A task whose wait has ended, and which is
  suspended before it runs again, finds EOK after the resume, whatever the wait ended with. So a
  semaphore wait returns EOK without a token (`KernelForged.EokWithoutToken`), a lock for a mutex
  that was destroyed (`KernelForged.EokWithoutMutex`), an event wait instead of its bits
  (`KernelForged.EokForBits`), and a wait for the end of a task that was killed
  (`KernelJoin.EokForKilled`). A lock also returns EOK when the mutex it was handed is destroyed
  before its task runs (`KernelForged.EokAfterDestroy`). These two kinds of steps, and only they,
  break the promise of these waits (`KernelHonest.CleanStep`), and runs without them keep it
  (`KernelHonest.EokIsEarned`). A condition wait is documented to wake up for no reason
  (condvar.h:58), so that its EOK promises nothing.
* A wait promises the time that remains when it is taken up again (semaphore.h:38), but measures it
  in the 32 bits of the counter. After a wrap it goes on past its timeout
  (`KernelLate.TimeoutMissed`); it ends on time iff less than a wrap has passed
  (`KernelStarts.RetryInEveryRun`).
* The queue trusts the EOK of its waits. With a forged one it overwrites unread elements or delivers what
  nobody wrote (`Fifo.ForgedWrite`, in a program `FifoKernel.BrokenQueue`). It stays in its bounds,
  whatever follows, iff no grant was forged (`Fifo.BoundedIffHonest`, over runs of the kernel
  `FifoKernel.QueueOnKernel`).
* A condition wait is documented to release the oldest mutex of its caller (condvar.h:57). It
  releases the head of the owned list, and `list_insert_first` inserts behind the first element, so
  that this is the oldest as long as the first one locked is kept. After locking 1, 2 and 3 and
  unlocking 1 the head is 3, the youngest (`KernelYoungest.YoungestReleased`). The exact condition
  is in `KernelOrder.CondWaitOrder`. The wait gives that mutex up only if it was locked once
  (`KernelEffects.CondWaitReleases`).
* `isix_task_change_prio` does not look at the waiters of the task's mutexes, nor tell the owner of
  the mutex the task waits for, which can keep a priority that nobody lends it any more
  (`KernelPrio.PriorityStays`). `KernelPrio.ChangeKeepsExact` and `KernelPrio.ChangeKeepsOwner` say
  exactly when inheritance stays exact.
* The catch-up loop of a cyclic soft timer compares a wrapped deadline with a tick that has not
  wrapped. It is right iff the next deadline fits the counter (`SoftTimers.CatchUpExact`); for a
  timer due at the last tick it never ends (`SoftTimers.CatchUpForever`).
* The device decoder returns 1 instead of -1 iff a literal marker is the first that does not fit its
  buffer (`LzChunks.BoundedOverflows`), as for `LzChunks.MarkerOverflowExample`; drawing then goes on
  with one byte (`LzChunks.WalkTooLong`).
* An image whose last chunk has one or two bytes, so one of a single byte, cannot be framed: the
  length byte underflows or looks like the terminator (`LzChunks.FrameRoundTrip`).
* The fast coder's window is one byte shorter than that of the slow one. Their outputs agree up to
  LZ_MAX_OFFSET + 4 bytes and can differ beyond (`LzWindow.AgreeUpTo`).
* `ALIGN_SIZE` wraps to zero for the three largest requests, which then get a block that is too
  small (`TinyAlloc.AllocEnough`, `TinyAlloc.HugeRequest`).
* The block loop of `MD5::update` tests a sum that can wrap (`Md5.LoopEnds`, `Md5.WrapExample`).

Where code and comment disagree, the model follows the code: `list_insert_first` carries the comment
of an insertion at the end.

## Model

| member | source | states |
|---|---|---|
| `KernelRun.EveryRunIsSafe` | libisix/kernel/scheduler.c:302-355 | from the start of the scheduler, every sequence of system calls, interrupt calls, task switches and ticks keeps the kernel invariant, and no `isix_bug` or list corruption is ever reached |
| `KernelRun.StepInv` | libisix/kernel/scheduler.c:546-628 | every single step keeps the invariant, whatever its arguments, given that the idle task never blocks and is not killed or suspended |
| `KernelRun.BootInv` | libisix/kernel/scheduler.c:192-234 | the state in which the scheduler starts satisfies the invariant |
| `KernelResults.ListsMatchStates` | libisix/kernel/scheduler.c:884-936 | in every reachable state a task is on at most one task list, once, on one exactly when its state demands it, on the list its state names, and on a time list only when it sleeps or waits |
| `KernelResults.ReadyListOrdered` | libisix/kernel/scheduler.c:572-628 | in every reachable state the ready list is strictly ordered by urgency, has no empty node, holds every task under its own priority, and with the free nodes makes up the pool of 17 |
| `KernelResults.QueuesByUrgency` | libisix/kernel/scheduler.c:661-682 | in every reachable state, also after nested blocking and priority changes, the wait queues of semaphores, mutexes and condition variables are sorted by current effective priority, equally urgent tasks there and all tasks on any other list stand in the order in which they came, and no task runs below its base priority |
| `KernelResults.MutexCoherent` | libisix/kernel/mutex.c:18-41 | in every reachable state a mutex is on a task's owned list iff that task is its owner, its count is positive iff it is owned, and waiters imply an owner that is not among them |
| `KernelResults.TokensConserved` | libisix/kernel/semaphore.c:52-152 | in every reachable state the blocked tasks are as many as the negative value says, and for an unlimited semaphore initial + signals = grants + stored tokens since creation or the last reset |
| `KernelResults.NoLostWakeup` | libisix/kernel/events.c:86-194 | in every reachable state no task on an event group's list has its condition met by the group's bits: of a wait for all some bit asked for is missing, of a wait for any every bit asked for is |
| `KernelResults.SleepPassesNoDeadline` | libisix/kernel/scheduler.c:458-486 | in every reachable state the tickless timeout is at least one tick, passes no deadline of any sleeping task, on either list and for every tick value, nor the next soft timer, and ends where one of these or the last tick before the wrap is; it is one tick otherwise only when one of these is now |
| `KernelResults.TicksWakeInOrder` | libisix/kernel/scheduler.c:389-422 | from every reachable state n ticks at once and n single ticks give the same state, also across wraps, and wake exactly the tasks whose deadline lies in that time, in the order of the queue of sleepers |
| `KernelResults.SleepersByDeadline` | libisix/kernel/scheduler.c:631-658 | in every reachable state the queue of sleepers is ordered by deadline, without repetition, with all deadlines after now and less than one wrap away |
| `KernelExact.InheritanceIsExact` | libisix/kernel/mutex.c:45-72 | in every run with fixed base priorities in which who waits for a mutex owns none, every live task has exactly the most urgent of its base priority and the priorities of the waiters on the mutexes it owns |
| `KernelExact.CalcExact` | libisix/kernel/mutex.c:45-59 | the loop over the owned mutexes computes that priority although it looks only at the head of each queue |
| `KernelExact.ExactStep` | libisix/kernel/mutex.c:94-227 | every step of such a run keeps every live task's priority exact: lock, unlock, waiter removal, destroy and all other calls |
| `KernelTime.AdvanceIsTicks` | libisix/kernel/scheduler.c:389-422 | advancing by n equals n advances by one, for every state with a valid tick value |
| `KernelTime.AdvanceWakes` | libisix/kernel/scheduler.c:358-422 | advancing by n wakes precisely the sleepers with a deadline up to now + n, in queue order, and leaves the deadlines of the others unchanged |
| `KernelTime.AddWaitingFacts` | libisix/kernel/scheduler.c:631-658 | a task put to sleep gets the deadline now + timeout on the right list for either side of the wrap, behind everyone with an earlier or equal deadline and before everyone with a later one |
| `KernelTime.SleepersOrdered` | libisix/kernel/scheduler.c:631-658 | the current list followed by the overflow list is ordered by absolute deadline |
| `KernelTime.NextTimeoutSafe` | libisix/kernel/scheduler.c:458-486 | the computed timeout is between 1 and the next timer event and ends before or at every deadline |
| `KernelTime.NextTimeoutWanted` | libisix/kernel/scheduler.c:458-486 | it is no shorter than it must be: when it ends a sleeper is due, the next soft timer is due or the counter stands before its wrap, or it is one tick and one of these is due now |
| `KernelLists.AddReadyOk` | libisix/kernel/scheduler.c:572-614 | a task made ready goes to the node of its priority, a fresh one if need be; the pool never runs out and the ready list stays ordered |
| `KernelLists.DelReadyOk` | libisix/kernel/scheduler.c:617-628 | a task taken off the ready list leaves no empty node behind |
| `KernelLists.AddToPrioQueueOk` | libisix/kernel/scheduler.c:661-671 | inserting into a priority queue keeps it sorted and changes nothing but the inserted task |
| `KernelLists.ReallocOk` | libisix/kernel/scheduler.c:855-880 | a priority change moves the task to its new place on whatever list it is on and changes nothing else |
| `KernelWake.AwakeOk` | libisix/kernel/scheduler.c:786-795 | a woken task becomes ready with the given result and no other task changes |
| `KernelMutex.LockInv` | libisix/kernel/mutex.c:94-142 | locking keeps the invariant, and a lock that returns EOK leaves the caller the owner |
| `KernelMutex.TrylockInv` | libisix/kernel/mutex.c:145-173 | so does trylock |
| `KernelMutex.UnlockInv` | libisix/kernel/mutex.c:177-227 | unlocking keeps the invariant; the last unlock hands the mutex to the first waiter, or frees it when there is none |
| `KernelNest.CountIsNesting` | libisix/kernel/mutex.c:94-227 | in every run the count of a mutex is the number of locks and trylocks that told its owner EOK since it got the mutex, less its unlocks; the history is told from owners and results alone |
| `KernelNest.OwnsUntilUnlocked` | libisix/kernel/mutex.c:109-113 | in every run, at any nesting depth, a task owns a mutex while it has unlocked it less often than locked it and nobody destroys it, kills the task or releases all it owns, and the count is the difference |
| `KernelNest.KeepsMutex` | libisix/kernel/mutex.c:177-227 | an owner keeps its mutex in a step if and only if that is neither its last unlock nor one of those three, and only the owner can lock or unlock it |
| `KernelNest.StepEffect` | libisix/kernel/mutex.c:94-275 | every step of the kernel leaves owner and count of every mutex alone, but for the locks and unlocks of its owner, the lock of a free one, and the three steps that take it away |
| `KernelNest.LockChange` | libisix/kernel/mutex.c:94-142 | a lock returns EINVARG, blocks or returns EOK by who owns the mutex; EOK makes the caller its owner with count one, or counts one more |
| `KernelNest.TrylockChange` | libisix/kernel/mutex.c:145-173 | so does a trylock, with EPERM in place of blocking |
| `KernelNest.UnlockChange` | libisix/kernel/mutex.c:177-227 | the result of an unlock by who owns the mutex; EOK counts one less, or ends the ownership when the count was one |
| `KernelNest.ComesBack` | libisix/kernel/condvar.c:107-121 | a condition wait that was signalled locks its mutex again; one that timed out or whose variable was destroyed returns that code without the mutex |
| `KernelMutex.UnlockAllInv` | libisix/kernel/mutex.c:231-267 | releasing all mutexes of a task leaves it with none, and ownership of all of them coherent |
| `KernelMutex.DestroyMutexInv` | libisix/kernel/mutex.c:279-318 | destroying a mutex keeps the invariant for all other objects |
| `KernelEffects.DestroyTells` | libisix/kernel/mutex.c:279-318 | every waiter of a destroyed mutex can run again and finds EDESTROY, the owner has lost the mutex, and no other task changes |
| `KernelSched.LockedOnReturn` | libisix/kernel/mutex.c:94-142 | a lock that was cut short and tried again, or that follows a condition wait, returns EOK only to the owner; any other lock that had to wait and returns EOK owns its mutex if and only if the mutex still exists |
| `KernelHonest.LockReturns` | libisix/kernel/mutex.c:126-131 | in every run a lock that had to wait returns EOK iff it was handed the mutex or its result was overwritten, owns the mutex iff it was handed it and the mutex was not destroyed since, and otherwise the mutex does not exist |
| `KernelForged.EokWithoutMutex` | libisix/kernel/task.c:288-303 | a run of a program in which a task destroys a mutex under a waiter, suspends and resumes the waiter, and its lock returns EOK for a mutex that does not exist |
| `KernelForged.EokAfterDestroy` | libisix/kernel/mutex.c:279-318 | a run of a program in which a task hands a mutex to a waiter and destroys it before the waiter runs, whose lock returns EOK all the same |
| `KernelEffects.LockBlocks` | libisix/kernel/mutex.c:113-131 | a lock of a mutex that another task owns puts the caller on its queue, leaves the owner at least as urgent as the caller, and changes no other task |
| `KernelEffects.UnlockHands` | libisix/kernel/mutex.c:177-227 | the last unlock of a mutex with waiters makes the first of them its owner and lets it run, leaves the caller the priority its other mutexes give it, and changes no other task |
| `KernelTasks.SuspendInv` | libisix/kernel/scheduler.c:884-936 | a suspended task is on no list and will retry a wait that was cut short; the account of the semaphore it waited for and all queues stay right |
| `KernelObjects.CondWaitInv` | libisix/kernel/condvar.c:90-121 | waiting on a condition variable keeps the invariant |
| `KernelEffects.CondWaitReleases` | libisix/kernel/condvar.c:90-121 | the caller ends up on the variable's queue, with its timeout as deadline or none; the mutex it waits with is given up if and only if it was locked exactly once |
| `KernelOrder.CondWaitOrder` | libisix/kernel/condvar.c:90-121 | in every run a condition wait releases the head of the owned list; that is the oldest, as condvar.h:57 promises, if and only if it is the only one or older than the last of the list, and the youngest if and only if it is the only one or younger than the second |
| `KernelOrder.OrderedStep` | libisix/kernel/mutex.c:18-41 | every step keeps the owned list of every task, its head apart, in the order latest first, with a stamp of when each mutex was got |
| `KernelYoungest.YoungestReleased` | libisix/include/isix/condvar.h:57 | a run of a program that breaks this promise: a task locks the mutexes 1, 2 and 3 and unlocks 1, and its condition wait releases 3, the youngest |
| `KernelObjects.CondSignalInv` | libisix/kernel/condvar.c:28-57 | a signal wakes the most urgent waiter and no other task |
| `KernelObjects.CondBroadcastInv` | libisix/kernel/condvar.c:60-87 | a broadcast wakes every waiter and empties the queue |
| `KernelObjects.CondDestroyInv` | libisix/kernel/condvar.c:125-135 | destroying wakes every waiter with EDESTROY and changes no other task |
| `KernelObjects.SemWaitInv` | libisix/kernel/semaphore.c:52-99 | waiting keeps the account of tokens and blocked tasks; without waiting it takes a stored token iff there is one, and else changes nothing |
| `KernelEffects.SemWaitUntil` | libisix/kernel/semaphore.c:64-99 | a wait that began at any time and is taken up now, with or without a timeout, returns EOK iff there is a token, ETIMEOUT iff there is none and its end has come, and else sleeps until exactly that end; the end is the timeout after the start iff less than one wrap of the counter has passed, and each wrap moves it by 2^32 ticks |
| `KernelStarts.RetryInEveryRun` | libisix/kernel/semaphore.c:64-99 | in every run this holds of a wait that is taken up again, with the absolute time at which the run made the call as its start |
| `KernelStarts.EventRetryInEveryRun` | libisix/kernel/events.c:86-151 | the same of an event wait, and of a rendezvous, which times out whatever bits are set: bits iff they satisfy the wait, a timeout iff its end has come, else asleep until that end |
| `KernelStarts.RememberedStep` | libisix/kernel/semaphore.c:64-99 | over every step each wait on a semaphore or event group keeps in the bits of the counter the time at which it began, and time does not go back |
| `KernelLate.TimeoutMissed` | libisix/include/isix/semaphore.h:38 | a run of a program that breaks this promise: a wait with a timeout of 5 ticks is suspended and resumed after 2^32 ticks, and blocks again |
| `KernelObjects.SemSignalInv` | libisix/kernel/semaphore.c:102-145 | a signal gives its token to the first waiter, or stores it up to the limit |
| `KernelObjects.SemTrywaitInv` | libisix/kernel/semaphore.c:148-152 | a trywait takes a stored token, counts it as granted and returns EOK iff there is one, and else changes nothing; it touches no task |
| `KernelObjects.SemResetInv` | libisix/kernel/semaphore.c:155-185 | a reset wakes every waiter with ERESET and stores the value, or the nearest one from zero to the limit |
| `KernelObjects.SemDestroyInv` | libisix/kernel/semaphore.c:198-210 | destroying wakes every waiter with EDESTROY and changes no other task |
| `KernelHonest.EokIsEarned` | libisix/kernel/semaphore.c:92-98 | in every run in which no task is resumed whose wait ended otherwise, and no mutex is destroyed that its new owner has not returned with, a blocked wait that returns EOK has a token, a blocked lock that returns EOK owns its mutex, a blocked event wait does not return EOK, and the EOK of a wait for the end of a task was not written by a resume |
| `KernelHonest.CleanStep` | libisix/kernel/task.c:266-303 | every step from such a state leads to such a state if and only if it is not one of these two, told from the result in the task, whether its wait was cut short, and the call it is in |
| `KernelHonest.ResumeForges` | libisix/kernel/task.c:288-303 | a resume puts EOK over the result of the task and changes nothing else; this replaces the result of a wait exactly when the wait had ended, was not cut short, and had not ended with EOK |
| `KernelHonest.ReturnsResult` | libisix/kernel/semaphore.c:92-98 | a blocked call that was not cut short, also a wait for the end of a task, returns EOK iff its task finds EOK, and its return changes no account |
| `KernelHonest.DestroyClean` | libisix/kernel/mutex.c:279-318 | destroying a mutex takes it back from a lock that will return EOK iff its owner is still inside the lock that gave it |
| `KernelHonest.SemReturns` | libisix/kernel/semaphore.c:92-98 | in every run a blocked wait returns EOK iff it has a token, granted or forged, and changes no account by returning |
| `KernelAccounts.StepCovered` | libisix/kernel/semaphore.c:52-145 | over every step, the waits on an unlimited semaphore that have returned EOK unforged, with those about to, stay within the tokens granted, and so within what it started with and was signalled |
| `KernelAccounts.StepKept` | libisix/kernel/semaphore.c:102-145 | no step but a signal gives a task a token |
| `KernelForged.EokWithoutToken` | libisix/kernel/task.c:288-303 | a run of a program in which a wait on a semaphore that never had a token times out, its task is suspended and resumed, and the wait returns EOK; in this and the other runs main creates, the idle task makes no calls, and a task acts only while no more urgent one can run |
| `KernelEvents.EventSetInv` | libisix/kernel/events.c:173-215 | setting bits keeps the invariant |
| `KernelEffects.WokenBySet` | libisix/kernel/events.c:173-194 | a set wakes exactly the waiters whose condition the new bits meet, bit by bit, and gives them those bits; the others are unchanged |
| `KernelBits.CondIs` | libisix/kernel/events.c:34-43 | the test of a wait is true for any iff some bit position is 1 in both words, and for all iff every 1 of the mask is a 1 of the group |
| `KernelBits.Cond2Is` | libisix/kernel/events.c:44-48 | the same for the word a waiting task has stored, whose bit 31 says that it waits for all of its bits 0 to 29 |
| `KernelBits.WordIs` | libisix/kernel/events.c:133-136 | the stored word has the bits asked for, and bits 31 and 30 say whether all are waited for and whether they are cleared |
| `KernelEffects.SetLeaves` | libisix/kernel/events.c:173-215 | after a set a bit is there iff it was there or was set, and no waiter whose condition it met asked for that bit to be cleared; the call returns the group's bits |
| `KernelEvents.SetBitsInv` | libisix/kernel/events.c:173-194 | after a set the group holds the new bits less those the woken waiters asked to clear |
| `KernelEvents.EventWaitInv` | libisix/kernel/events.c:86-151 | waiting keeps the invariant |
| `KernelEvents.EventTakeInv` | libisix/kernel/events.c:86-151 | a wait that returns bits at once returns bits that satisfy its condition, all or any, bit by bit; one told not to wait returns what is there |
| `KernelEffects.EventWaitUntil` | libisix/kernel/events.c:86-151 | a wait that is taken up now returns the bits iff, bit by bit, all or any that it asked for are set, clears what it was asked to, times out iff its end has come, and else sleeps until exactly that end; the end is the timeout after the start iff less than one wrap of the counter has passed, and each wrap moves it by 2^32 ticks |
| `KernelHonest.EventReturns` | libisix/kernel/events.c:142-151 | in every run a blocked event wait that was not cut short returns bits of which, bit by bit, all or any that it asked for are set, or a code, and the code EOK exactly when its result was overwritten |
| `KernelForged.EokForBits` | libisix/kernel/task.c:288-303 | a run of a program in which a wait that was woken with its bits, and suspended before it ran, returns EOK instead of them |
| `KernelJoin.EokForKilled` | libisix/kernel/task.c:344-374 | a run of a program in which a task waits for the end of another, which is killed; it is suspended and resumed, and told that the other ended itself |
| `KernelEvents.EventClearInv` | libisix/kernel/events.c:154-170 | clearing returns the bits before, takes away exactly those given, refuses control bits, and satisfies nobody's condition |
| `KernelEvents.EventSyncInv` | libisix/kernel/events.c:230-289 | set-and-wait keeps the invariant |
| `KernelEffects.SyncReleases` | libisix/kernel/events.c:230-289 | the task that brings the last bit returns at once, releases everyone who waits for the same bits, with those bits, and leaves none of them set |
| `KernelEffects.SyncBlocks` | libisix/kernel/events.c:230-289 | who does not bring the last bit waits for all of the same bits until the timeout, or learns what is set when told not to wait |
| `KernelEvents.EventDestroyInv` | libisix/kernel/events.c:66-83 | destroying wakes every waiter with EDESTROY and changes no other task |
| `KernelTasks.CreateInv` | libisix/kernel/task.c:39-118 | creating a task, ready or suspended, keeps the invariant |
| `KernelEffects.CreateMakes` | libisix/kernel/task.c:39-118 | a new task is ready or suspended at its priority, owns nothing and waits for nothing, no other task changes, and a priority out of range creates nothing |
| `KernelTasks.ChangePrioInv` | libisix/kernel/task.c:124-150 | a priority change keeps every queue sorted and the effective priority at or above the base |
| `KernelEffects.ChangePrioIs` | libisix/kernel/task.c:124-150 | the base priority is the new one, the effective one follows unless a more urgent one is inherited, the old base is returned, and no other task changes |
| `KernelPrio.ChangeKeepsExact` | libisix/kernel/task.c:124-150 | a priority change leaves the task exact if and only if the base stays, the task inherits a priority, or nobody who waits for its mutexes is more urgent than the new base |
| `KernelPrio.ChangeKeepsOwner` | libisix/kernel/task.c:124-150 | it leaves the owner of the mutex the task waits for exact if and only if the task does not become more urgent than the owner, and was not alone in lending the owner its priority or still has it |
| `KernelPrio.ChangeKeepsOthers` | libisix/kernel/task.c:124-150 | it leaves every other task exact that owns no mutex the task waits for |
| `KernelPrio.PriorityStays` | libisix/kernel/task.c:124-150 | a run of a program in which a waiter is made less urgent and the owner of the mutex goes on at the priority it was lent |
| `KernelTasks.KillInv` | libisix/kernel/task.c:170-195 | killing keeps the invariant |
| `KernelEffects.KillEnds` | libisix/kernel/task.c:155-195 | a killed task owns nothing and is a zombie; who waited for its end can run again and finds EOK if it ended itself, else EDESTROY |
| `KernelTasks.ResumeInv` | libisix/kernel/task.c:288-303 | resuming keeps the invariant |
| `KernelTasks.WaitForInv` | libisix/kernel/task.c:344-374 | waiting for the end of a task keeps the invariant, in particular nobody waits for a task that has ended; what the call returns, or that it blocks, by reference count and state |
| `KernelTasks.SleepInv` | libisix/kernel/ostime.c:61-89 | sleeping keeps the invariant |
| `KernelEffects.TimeoutIs` | libisix/kernel/scheduler.c:845-852 | a call that blocks with a timeout is among the sleepers with the deadline now + timeout |
| `KernelTasks.CleanupInv` | libisix/kernel/scheduler.c:687-719 | the idle task takes the first dead task off the list, and forgets it iff nobody has a reference to it; all other tasks stay, and the invariant holds |
| `KernelSched.SwitchInv` | libisix/kernel/scheduler.c:302-355 | a switch reaches no panic and runs a most urgent runnable task |
| `KernelEffects.SwitchTo` | libisix/kernel/scheduler.c:302-355 | a task more urgent than all others that can run is the next to run |
| `KernelFair.LongestWaiting` | libisix/kernel/scheduler.c:312-325 | of the most urgent tasks the one that has waited longest on its node is the next to run, and the running one runs again only when it is the only one |
| `KernelFair.EachRunsOnce` | libisix/kernel/scheduler.c:312-325 | in every run, with n tasks as urgent as any that can run, n switches without another step run each of them exactly once |
| `KernelEffects.SwitchKeeps` | libisix/kernel/scheduler.c:302-355 | a switch changes no more of any task than whether it is marked running |
| `KernelSched.AdvanceInv` | libisix/kernel/scheduler.c:389-422 | ticks keep the invariant |
| `KernelSched.ContinueInv` | libisix/kernel/semaphore.c:92-98 | the rest of a blocked call after the yield keeps the invariant |
| `KernelSystem.System.Perform` | libisix/kernel/scheduler.c:166-188 | the object that is updated in place does what the state machine does, for every step, and keeps its invariant |
| `KernelSystem.System.constructor` | libisix/kernel/scheduler.c:192-234 | initialisation fills the pool with 17 free nodes, creates the idle task and leaves the object in the state in which every run starts |
| `ListNodes.InsertBetween` | libisix/include/isix/prv/list.h:32-39 | on nodes with next and prev links, setting the four links puts the element between its neighbours in the ring |
| `ListNodes.InsertSecond` | libisix/include/isix/prv/list.h:49-65 | `list_insert_first` on the nodes: the ring has the element behind its first one |
| `ListNodes.InsertEnd` | libisix/include/isix/prv/list.h:55-58 | the ring has the element at its end |
| `ListNodes.Delete` | libisix/include/isix/prv/list.h:148-154 | the ring keeps the order of all other elements, and the links of the element are null |
| `ListNodes.IsEmpty` | libisix/include/isix/prv/list.h:72-73 | the head is its own successor if and only if the ring has no elements |
| `ListNodes.AddToPrioQueue` | libisix/kernel/scheduler.c:661-671 | the walk along the next links puts the node where the sequence of the model has the task |
| `KernelSystem.System.AddToPrioQueue` | libisix/kernel/scheduler.c:661-671 | the walk over the waiters ends before the first that is less urgent |
| `KernelSystem.System.AddReadyList` | libisix/kernel/scheduler.c:546-614 | the walk over the nodes ends at the node of the priority, or takes one from the pool and links it in order |
| `KernelSystem.System.AddTaskToWaitingList` | libisix/kernel/scheduler.c:631-658 | the walk over the sleepers ends before the first with a later deadline |
| `KernelSystem.System.CalcInheritedPriority` | libisix/kernel/mutex.c:45-59 | the loop over the owned mutexes returns the value that CalcExact is about |
| `KernelSystem.System.UnlockAllInTask` | libisix/kernel/mutex.c:231-267 | the loop over the owned mutexes hands each to its first waiter or frees it, as UnlockAllInv says |
| `KernelSystem.System.DestroyMutex` | libisix/kernel/mutex.c:279-318 | the loop over the waiters dismisses each with its own priority, as DestroyTells says |
| `KernelSystem.System.WakeupAll` | libisix/kernel/semaphore.c:155-170 | the loop over a wait list wakes every task on it with the given result |
| `KernelSystem.System.SetEventBits` | libisix/kernel/events.c:173-194 | the loop over the waiters wakes those that WokenBySet names and collects the bits to clear |
| `KernelSystem.System.ExpireWaitingTasks` | libisix/kernel/scheduler.c:358-386 | the loop over the sleepers wakes those that AdvanceWakes names |
| `KernelSystem.System.AdvanceJiffies` | libisix/kernel/scheduler.c:389-422 | the loop over the wraps of the counter is the advance that AdvanceIsTicks splits into ticks |
| `LzStream.RoundTrip` | libgfx/host-tools/lz.c:191-317 | decompressing a compressed input gives the input back, for every input below 2^32 bytes and any window |
| `LzStream.FastIsSlow` | libgfx/host-tools/lz.c:405-484 | up to four bytes more than LZ_MAX_OFFSET the output of the fast coder is byte for byte that of the slow one |
| `LzWindow.AgreeUpTo` | libgfx/host-tools/lz.c:405-484 | the two coders agree on all inputs of a size if and only if it is at most LZ_MAX_OFFSET + 4 |
| `LzWindow.FarDiffers` | libgfx/host-tools/lz.c:411-439 | for every larger size an input on which they differ |
| `LzStream.SizeBound` | libgfx/host-tools/lz.c:51-52 | the output never exceeds insize + insize/256 + 1 bytes |
| `LzStream.MarkerRare` | libgfx/host-tools/lz.c:209-227 | the marker byte occurs at most once in 256 bytes |
| `LzStream.RefShorter` | libgfx/host-tools/lz.c:275-297 | the coder's test of a match of at least 4 bytes holds if and only if the marker and the base-128 integers of length and offset take fewer bytes than the match |
| `LzStream.RefIffShorter` | libgfx/host-tools/lz.c:242-297 | the longest match of at least 4 bytes, the nearest one on ties, is written as a reference if and only if that is shorter, and as a literal otherwise |
| `LzStream.LitOtherwise` | libgfx/host-tools/lz.c:275-300 | without a match of 4 bytes in the window a byte is written as it is |
| `LzStream.RepeatCheap` | libgfx/host-tools/lz.c:242-297 | what occurs a second time within the window costs at most 25 bytes, however long it is |
| `LzFormat.ReadVarSize` | libgfx/host-tools/lz.c:118-173 | reading back a written base-128 integer gives the integer and the bytes behind it |
| `LzFormat.DecodeEmit` | libgfx/host-tools/lz.c:495-549 | decoding emitted tokens gives what the tokens mean |
| `LzSearch.LongestFinds` | libgfx/host-tools/lz.c:237-272 | the search returns the longest match of the window over three bytes, the nearest on ties, or none |
| `LzSearch.SlowRejects` | libgfx/host-tools/lz.c:248-272 | the quick test of the brute-force search discards no improving match, whatever lies behind the input |
| `LzCoder.FastRejects` | libgfx/host-tools/lz.c:411-439 | nor does that of the chain search |
| `LzSearch.ChaseFinds` | libgfx/host-tools/lz.c:411-439 | following the chain of equal byte pairs finds what the full scan finds |
| `LzSearch.ParseExpands` | libgfx/host-tools/lz.c:237-316 | the tokens of the main loop mean the input |
| `LzSearch.WindowFits` | libgfx/host-tools/lz.c:411-439 | a smaller window makes no difference to inputs that reach at most five bytes past it |
| `LzCoder.NumBytes` | libgfx/host-tools/lz.c:118-129 | the shifting loop counts the base-128 digits |
| `LzCoder.WriteVarSize` | libgfx/host-tools/lz.c:118-145 | writes the digits and nothing else |
| `LzCoder.ReadVarSize` | libgfx/host-tools/lz.c:153-173 | reads the integer and its size |
| `LzCoder.FindMarker` | libgfx/host-tools/lz.c:209-227 | finds the least common byte, the smallest on ties |
| `LzCoder.StringCompare` | libgfx/host-tools/lz.c:102-110 | computes the length of the match |
| `LzCoder.BruteForce` | libgfx/host-tools/lz.c:237-272 | the loop over all offsets, with its quick test, returns the longest match |
| `LzCoder.Compress` | libgfx/host-tools/lz.c:191-317 | writes exactly the compressed stream into the buffer |
| `LzCoder.BuildJumpTable` | libgfx/host-tools/lz.c:363-374 | every position points to the previous one with the same byte pair |
| `LzCoder.ChainSearch` | libgfx/host-tools/lz.c:411-439 | the loop over the chain, with its quick test, returns the longest match of its window |
| `LzCoder.CompressFast` | libgfx/host-tools/lz.c:331-484 | writes the compressed stream of the fast window, which up to LZ_MAX_OFFSET + 4 bytes is that of the slow coder |
| `LzCoder.UncompressInto` | libgfx/host-tools/lz.c:495-549 | writes exactly the decoded bytes |
| `LzChunks.FrameRoundTrip` | libgfx/host-tools/convflashbmp.cpp:189-232 | the device shows exactly the image stream if and only if its length modulo 256 is neither 1 nor 2, that is, its last chunk has more than two bytes or is full |
| `LzChunks.LengthBytes` | libgfx/host-tools/convflashbmp.cpp:217-230 | for such a stream every length byte lies in 1 to 255 |
| `LzChunks.ChunkDecodes` | libgfx/src/gdi.cpp:57-114 | the bounded decoder recovers every chunk |
| `LzChunks.BoundedAgrees` | libgfx/src/gdi.cpp:57-114 | within its buffer the device decodes what the host decodes |
| `LzChunks.BoundedOverflows` | libgfx/src/gdi.cpp:57-114 | of too much data the buffer holds what fits, and -1 reports it if and only if the first token that does not fit is not a literal marker; for that one the result is 1 |
| `LzChunks.MarkerOverflowExample` | libgfx/src/gdi.cpp:83-89 | a stream of 8 bytes for 257 bytes of data and the buffer of 256: the result is 1 and no error |
| `LzChunks.WalkTooLong` | libgfx/src/gdi.cpp:436-456 | drawing a chunk that decodes to more than a line fails if and only if the first token that does not fit is not a literal marker; else one byte of it is shown and the walk goes on |
| `LzChunks.WalkOverflowExample` | libgfx/src/gdi.cpp:436-456 | an image of that one chunk is drawn as one byte |
| `LzChunks.WriteImage` | libgfx/host-tools/convflashbmp.cpp:176-234 | the loop over the bytes writes the framed image |
| `LzChunks.LzUncompress` | libgfx/src/gdi.cpp:57-114 | the device decoder's result and buffer |
| `LzChunks.DrawImage` | libgfx/src/gdi.cpp:436-491 | the chunk walk shows the decoded chunks and fails when one does |
| `Fifo.FirstInFirstOut` | libisix/kernel/fifo.c:28-155 | under every interleaving in which no grant is forged, the elements copied out are a prefix of those copied in, the unread ones fit the capacity and wait in their slots, and the count is their number less those not signalled yet or about to be copied out |
| `Fifo.BoundedIffHonest` | libisix/kernel/fifo.c:64-155 | after any run, forged grants included, the queue stays in its bounds, whatever honest steps follow, if and only if no grant of the run was forged |
| `Fifo.ForgedBreaks` | libisix/kernel/fifo.c:64-155 | after a forged grant honest steps alone can overwrite an unread element or read one that was never written |
| `Fifo.PositionsMeet` | libisix/kernel/fifo.c:75-80 | at the bounds the two positions are equal: a write there replaces the oldest unread element, a read there gets one that no write left |
| `Fifo.TokensMakeCapacity` | libisix/kernel/fifo.c:64-155 | free tokens, stored tokens and operations in flight make up the capacity if and only if no grant was forged |
| `Fifo.ForgedWrite` | libisix/kernel/fifo.c:66-80 | a concrete run: a forged write overwrites the one unread element, and what is read is not a prefix of what was written |
| `Fifo.ForgedRead` | libisix/kernel/fifo.c:116-130 | a concrete run: a forged read of an empty queue gets what nobody wrote |
| `FifoKernel.QueueOnKernel` | libisix/kernel/fifo.c:28-155 | the steps of the queue read off any run of the kernel that keeps its two semaphores to it are lawful, and it stays in its bounds iff no wait on them returned a forged EOK |
| `FifoKernel.FirstInFirstOut` | libisix/kernel/fifo.c:28-155 | in every run of the kernel in which no task is resumed whose wait ended otherwise and no mutex is taken back, what is read is a prefix of what was written |
| `FifoKernel.BrokenQueue` | libisix/kernel/fifo.c:114-135 | a run of a program with a queue of one element, in which a reader times out, is suspended and resumed, and reads an element that nobody wrote |
| `FifoKernel.KernelMove` | libisix/kernel/fifo.c:64-89 | a step of the kernel is a step of the queue for which there is a token, a forged grant, or no step of the queue |
| `Fifo.StepInv` | libisix/kernel/fifo.c:64-155 | every step but a forged grant keeps the unread elements in their slots |
| `Fifo.WriteCopyInv` | libisix/kernel/fifo.c:64-111 | a write that was granted a slot overwrites no unread one |
| `Fifo.ReadCopyInv` | libisix/kernel/fifo.c:114-155 | a read that was granted an element gets the oldest unread one |
| `Fifo.Drained` | libisix/kernel/fifo.c:114-155 | when nothing is stored or in flight and no grant was forged, all that was written has been read |
| `FifoRing.Ring.constructor` | libisix/kernel/fifo.c:28-60 | the bytes hold an empty queue |
| `FifoRing.Ring.CopyIn` | libisix/kernel/fifo.c:75-80 | the copy of the bytes and the move of the position with its wrap are the step WriteCopy of the queue |
| `FifoRing.Ring.CopyOut` | libisix/kernel/fifo.c:125-130 | and these the step ReadCopy, with the bytes the queue gives out |
| `TinyAlloc.RunGood` | libfoundation/src/sys/tiny_alloc.c:66-143 | after any sequence of allocations and releases the blocks tile the heap exactly and no two free blocks are adjacent |
| `TinyAlloc.AllReleased` | libfoundation/src/sys/tiny_alloc.c:109-143 | when everything has been given back the heap is the initial single block |
| `TinyAlloc.AllocFails` | libfoundation/src/sys/tiny_alloc.c:74-100 | allocation fails if and only if no free block is large enough |
| `TinyAlloc.AllocGood` | libfoundation/src/sys/tiny_alloc.c:66-101 | allocation keeps the tiling |
| `TinyAlloc.FreeGood` | libfoundation/src/sys/tiny_alloc.c:109-143 | releasing keeps the tiling and merges with both neighbours |
| `TinyAlloc.AllocHolds` | libfoundation/src/sys/tiny_alloc.c:66-101 | an allocation adds its block to those in use and moves no other |
| `TinyAlloc.FreeHolds` | libfoundation/src/sys/tiny_alloc.c:109-143 | a release takes its block from those in use and moves no other |
| `TinyAlloc.FirstFit` | libfoundation/src/sys/tiny_alloc.c:74-97 | the block found is the first free one that is large enough |
| `TinyAlloc.AllocEnough` | libfoundation/src/sys/tiny_alloc.c:66-101 | the block given out has room for the request if and only if the request is at most 2^32 - 4, and less than a header more than the aligned request |
| `TinyAlloc.HugeRequest` | libfoundation/src/sys/tiny_alloc.c:66-101 | a request for 2^32 - 1 bytes succeeds on every fresh heap, with fewer than 8 bytes |
| `TinyHeap.Heap.constructor` | libfoundation/src/sys/tiny_alloc.c:49-62 | one free block, with the list head anywhere outside the heap and not next to it |
| `TinyHeap.Heap.Search` | libfoundation/src/sys/tiny_alloc.c:74-97 | the walk over the free list ends at the first fit or at the end of the list |
| `TinyHeap.Heap.Allocate` | libfoundation/src/sys/tiny_alloc.c:66-101 | rewrites the linked free list into that of the new row of blocks and returns the address behind the header, or null; a block returned has room for the request iff the request is at most 2^32 - 4 |
| `TinyHeap.Heap.FindPlace` | libfoundation/src/sys/tiny_alloc.c:118-140 | the search for the place of a released block terminates at its place in the address order |
| `TinyHeap.Heap.Release` | libfoundation/src/sys/tiny_alloc.c:109-143 | rewrites the linked free list into that of the new row of blocks, with both merges |
| `SoftTimers.FiresInEveryRun` | libisix/kernel/softtimers.c:158-217 | a waiting timer handled one period at a time at any nondecreasing times has made floor((t - start) / period) callbacks by the last of them if cyclic, one if one-shot, none early |
| `SoftRuns.FiresInEveryRun` | libisix/kernel/softtimers.c:230-269 | in every run of the worker, through starts, cancels and deletions of other timers, every listed timer has made by the last turn exactly the callbacks that were due |
| `SoftRuns.StartedFires` | libisix/kernel/softtimers.c:246-249 | so has every timer that the run starts, early or late: from its start on, or one at once and then from now on |
| `SoftRuns.OthersDoNotMatter` | libisix/kernel/softtimers.c:230-269 | the commands for other timers change nothing for a timer |
| `SoftRuns.Serve` | libisix/kernel/softtimers.c:230-269 | the loop of the worker over a sequence of commands, on its lists, does the run of the model, so that every listed timer has the right number of callbacks |
| `SoftRuns.TakeTurn` | libisix/kernel/softtimers.c:236-266 | one turn: the command and then the time, and the wait is the time to the next deadline |
| `SoftTimers.FiresOnTime` | libisix/kernel/softtimers.c:161-185 | the same for one handling |
| `SoftTimers.HandledTwice` | libisix/kernel/softtimers.c:188-217 | handling at two times is handling at the later one |
| `SoftTimers.HandledWaits` | libisix/kernel/softtimers.c:161-185 | a cyclic timer that was handled waits for a deadline after now, a whole number of periods after its start |
| `SoftTimers.HandledIs` | libisix/kernel/softtimers.c:161-185 | firing period by period ends with one callback per ended period and the deadline at the end of the next |
| `SoftTimers.CatchUpExact` | libisix/kernel/softtimers.c:161-185 | the catch-up loop makes exactly the missed calls if and only if the next deadline fits the tick counter |
| `SoftTimers.CatchUpForever` | libisix/kernel/softtimers.c:161-185 | for a cyclic timer due at the last tick before the wrap no next deadline fits, and the guard of the catch-up loop holds at every turn |
| `SoftTimers.DueAtTheEnd` | libisix/kernel/softtimers.c:161-185 | there is such a timer for every period |
| `SoftTimers.Worker.Place` | libisix/kernel/softtimers.c:74-83 | the place behind every timer whose deadline is not later |
| `SoftTimers.Worker.AddVtimer` | libisix/kernel/softtimers.c:88-103 | the timer goes to the list of its wrap and both lists stay ordered |
| `SoftTimers.Worker.HandleAdd` | libisix/kernel/softtimers.c:106-132 | the timer is armed and goes to the list of its wrap: a start before the first deadline waits for it, a late one fires at once and, if cyclic, counts its periods from now |
| `SoftTimers.Worker.HandleCancel` | libisix/kernel/softtimers.c:220-226 | the timer leaves both lists |
| `SoftTimers.Worker.CatchUp` | libisix/kernel/softtimers.c:161-185 | one callback per missed period, then the next deadline |
| `SoftTimers.Worker.HandleTime` | libisix/kernel/softtimers.c:188-217 | the expiry loop ends, has handled every listed timer, leaves only deadlines after now, and returns the time to the next one |
| `Md5.HashPieces` | libfoundation/src/algo/md5sum.cpp:255-334 | hashing a message in any split into updates gives the one-shot digest: the fold of the transform over the message padded as in sections 3.1 and 3.2 of RFC 1321 |
| `Md5.PaddedIs` | libfoundation/src/algo/md5sum.cpp:294-334 | the padded message is the message, one byte 0x80, zeros to eight bytes before the end of a block, and the length in bits modulo 2^64, low-order byte first |
| `Md5.InitIs` | libfoundation/src/algo/md5sum.cpp:121-134 | the four words of the start are the bytes 01 23 45 67 89 ab cd ef fe dc ba 98 76 54 32 10 of section 3.3 of RFC 1321 |
| `Md5.MD5.Update` | libfoundation/src/algo/md5sum.cpp:255-288 | whole blocks are transformed and the rest is buffered |
| `Md5.MD5.Finalize` | libfoundation/src/algo/md5sum.cpp:302-334 | the digest is that of the padded message; a second call changes nothing |
| `Md5.MD5.CountBits` | libfoundation/src/algo/md5sum.cpp:260-263 | the two words hold the bit length modulo 2^64 |
| `Md5.CountsAdd` | libfoundation/src/algo/md5sum.cpp:260-263 | the carry found by comparing the sum with the addend is right |
| `Md5.LengthField` | libfoundation/src/algo/md5sum.cpp:152-160 | the encoded counter is the 64-bit length, low-order byte first |
| `Md5.LoopEnds` | libfoundation/src/algo/md5sum.cpp:271-282 | the block loop ends where it should if and only if its 32-bit test does not wrap there |
| `Md5.ShortEnough` | libfoundation/src/algo/md5sum.cpp:271-282 | any update of less than 2^32 - 64 bytes is fine |
| `Md5.WrapExample` | libfoundation/src/algo/md5sum.cpp:271-282 | for an update of 2^32 - 64 bytes on an empty buffer the index wraps to zero behind the last block and the loop goes on from every index it can have |

## Left out

- KernelRun.EveryRunIsSafe: using an object after its destruction is the caller's error and is excluded, also for a suspended wait that would retry on it; so is killing, suspending or blocking the idle task.
- KernelExact.InheritanceIsExact: inheritance in the source is one level deep, so the claim is for runs with fixed base priorities in which who has to wait for a mutex owns none; for a change of a base priority `KernelPrio` has the exact condition.
- KernelResults.TokensConserved: semaphore values are unbounded here and start non-negative; the overflow of the 32-bit counter is not modelled, and with a limit tokens beyond it are dropped, so the account is stated without one.
- KernelResults.SleepPassesNoDeadline: the delay of the soft timers is an argument; when the idle task may enter the sleep at all (`can_enter_tickless_sleep`) is not modelled.
- KernelHonest.EokIsEarned: of a wait for the end of a task it says that no resume wrote the EOK, not how the task ended; `KernelEffects.KillEnds` says what the end tells who waits.
- FifoKernel.FirstInFirstOut: `isix_fifo_destroy` and a reset of the two semaphores are left out, and the semaphores are used by the queue alone.
- ListNodes.AddToPrioQueue: the other walks of the kernel are on sequences (`KernelSystem`), not on linked nodes.
- LzCoder.UncompressInto: for well-formed streams whose result fits the buffer; on others the C code reads or writes outside its buffers.
- LzChunks.LzUncompress: for streams the decoder can read without leaving them.
- LzChunks.DrawImage: for images the walk can read without leaving them; the conversion of pixels and the display are left out.
- LzChunks.WriteImage: starts from the bytes of the image; the colour conversions and the text form of the output file are left out.
- TinyHeap.Heap.Release: for blocks that are allocated; double release and foreign pointers are the caller's error.
- SoftTimers.Worker.HandleTime: without a wrap of the tick counter, with periods of at least one tick, and with callbacks that leave the timers alone; `switch_timer_list` and `isix_vtimer_mod` inside a callback are left out.
- SoftRuns.Serve: for runs in which the tick counter does not wrap and, while a timer is listed, its next deadline fits the counter; beyond that `SoftTimers.CatchUpExact` applies.
- Md5.HashPieces: the transform is any fixed function of state and block, its rounds and the hexadecimal output are left out.
- The scheduler before its start, `_isixp_lock_scheduler` with the ticks it defers, and the tickless sleep itself.
- `isix_task_ref`, `isix_task_unref`, stack and memory statistics, priority queries: they would only add easy members.
- The event notification hooks of semaphores and queues.
- Allocation failure when an object or a task is created.
- Context switching, interrupt masking, the atomic instructions of the semaphore counter and memory protection: each kernel call is one atomic step.
- Memory pools, time conversion, the modem, USB, widget, display, cipher, printing and energy-meter libraries.

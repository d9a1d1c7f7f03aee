# Verified model of the scheduler, memory, CPU and filesystem

The repository is a teaching operating system in four cooperating programs. This project models the
parts that have to be right together and proves what they guarantee:

- **Kernel** (`KernelState`, `KernelInvariant`, `KernelRuns`, `KernelHandoff`, `KernelEffects`, `KernelQueues`,
  `Teardown`, `TeardownEnds`, `TeardownOrder`, `IoRace`, `Scheduling`, `KernelMachine`): READY, BLOCKED and EXIT,
  the counting semaphores, joins, simulated mutexes with first-come hand-off, the IO queue, dumps in flight
  and the NEW list, as a transition system. Each syscall, completion and preemption is one step; the order of steps is
  arbitrary.
- **Memory** (`Partitions`, `LocalEdits`, `Memory`, `DynamicMemory`, `AnySort`, `FixedMemory`, `Contexts`,
  `BareMemory`, `MemoryMachine`): the fit policies, the dynamic partition list that is rebuilt from the
  process list, the fixed scheme, and the execution contexts kept per thread.
- **CPU** (`Words`, `Cpu`, `CpuLaws`, `Fibo`): instruction semantics on 32-bit registers and little-endian memory,
  the instruction cycle, and a shipped script proved for every loop count.
- **Filesystem** (`Bitmap`, `BlockFile`, `FileSystem`, `FileRuns`, `BlockDevice`, `Dump`): the block bitmap,
  indexed allocation, what can be read back, and memory dumps end to end.
- **Across programs** (`Admission`, `WholeSystem`, `SystemRuns`, `AdmissionRuns`): long-term admission over
  kernel and memory, and when NEW is left waiting; the whole system from power-on, one instruction at a time, with contexts saved and loaded, shown
  equivalent to a machine in which each thread keeps its own registers.
- **The shipped mutex workload** (`MutexScript`, `MutexFrame`, `MutexTeam`, `MutexProgram`, `MutexFamily`,
  `MutexParent`, `MutexChildren`, `MutexWorkload`, `MutexTurns`, `MutexProgress`, `MutexRanks`, `MutexSites`,
  `MutexPriorities`, `MutexBroken`): the mutex script run by any number of threads among arbitrary other
  processes, in any run from start-up; its parent, which creates them, joins them and reads their sum; that
  the workload is never stuck and finishes; and the second shipped workload beside it, which does no harm
  under the kernel's schedulers with the scripts' own priorities, and breaks it with equal ones.

Code that updates state in place is modelled by classes (`Kernel`, `MemoryModule`, `Machine`, `Device`,
`LongTerm`) whose methods are proved equal to functions on values; the properties are lemmas about
those functions over all runs. Inductive proofs are written out (`{:induction false}`).

The results about the mutex workload say what the rest of the system must leave alone (`Polite`):
another thread does not lock or unlock MUTEX or create it first, does not write the four bytes of
the shared word while its process is in memory, and does not end under a TID the mutex is held under
at that moment. The last condition is needed because exits compare TIDs only: `EndingSparesIff` is the
exact statement. The two shipped workloads share TIDs. `ShippedWorkloadsWork` shows that they still work
together in every run from start-up by priority, with interruptions anywhere, when the members have the
worst priority, as in the scripts (6 against 4 and 5), and in every run without interruptions, as FIFO
makes them (scheduler.c starts the quantum for CMN alone). `SharedTidsBreakExclusion` is a run of both, by
priority and interrupted, in which exclusion fails once all priorities are equal.

Where the code falls short of what its names and messages promise, the code is modelled as it is,
with an example and the exact condition: TIDs can be reused while alive (`CreateThreadKeepsIff`,
`ThreadIdsCanCollide`), unlocks and exits compare only TIDs (`UnlockNeedsOwnerIff`, `ExitNeedsOwnerIff`,
`ForeignUnlockHappens`), locking a missing mutex can strand joiners (`LockMissingKeepsIff`,
`MissingLockStrands`), ending a process with several threads never leaves the kernel in order
(`TeardownKeepsOrderIff`): alone in the system it blocks the dispatcher for good (`LoneProcessHangs`,
`PairHangs`, and `FinishesIff` for when the loop can end), and otherwise it strands threads or loses them
(`NeighbourStarves`, `SurvivorIsLost`), an IO request posted before its thread is blocked can strand it
(`CompletionBetweenHalvesIff`, `FirstInLine`), tiling depends on the library's sort once an empty
process shares a base (`EverySortTilesIff`, `CreationCrowdsIff`, `ZeroSizeMeetsTheSort`), BEST ignores
partitions of INT_MAX and WORST empty ones (`WhenEachCriterionSucceeds`, `FirstRequestIff`), a segmentation
fault frees memory without looking at NEW (`NewWaitsForRoom`, `FaultStrandsNew`), a dump from
an unaligned base copies the wrong bytes (`CopyIsExactIffAligned`, `UnalignedDump`), and files are
stored wrongly when the block count wraps, pointers overflow the index block or the data is not in whole
words (`ReadsBackIff`, `NeededIsCeilingIff`, `OverflowCorrupts`, `RaggedCorrupts`, `WrapCorrupts`).

`dafny verify dfyconfig.toml` checks the project.

## Model

| member | source | states |
|---|---|---|
| `KernelRuns.StepKeeps` | tp-2024-2c-Los-Sin-Ideas-main/tp-2024-2c-Los-Sin-Ideas-main/kernel/src/kernel_dispatch/kernel_dispatch.c:84-460 | one syscall, completion or preemption keeps the whole invariant, and everybody alive before is alive or in EXIT after, plus the thread the step created |
| `KernelRuns.RunKeeps` | tp-2024-2c-Los-Sin-Ideas-main/tp-2024-2c-Los-Sin-Ideas-main/kernel/src/kernel_dispatch/kernel_dispatch.c:84-460 | the same over any run from any state that satisfies the invariant |
| `KernelRuns.NoThreadLost` | tp-2024-2c-Los-Sin-Ideas-main/tp-2024-2c-Los-Sin-Ideas-main/kernel/src/kernel_dispatch/kernel_dispatch.c:84-460 | in every state reachable from start-up READY, BLOCKED, the running thread and EXIT hold exactly the threads created so far, no live thread is in two places, and BLOCKED is the disjoint union of join waiters, pending IO, mutex waiters and dumps in flight |
| `KernelRuns.SemaphoreCountsReady` | tp-2024-2c-Los-Sin-Ideas-main/tp-2024-2c-Los-Sin-Ideas-main/kernel/src/kernel_dispatch/kernel_dispatch.c:93-98 | `sem_thread_count` is the length of READY in every reachable state, so a passed wait finds a thread, and removing the dispatched thread from READY again finds nothing |
| `KernelRuns.WakeUpsFindTheirThread` | tp-2024-2c-Los-Sin-Ideas-main/tp-2024-2c-Los-Sin-Ideas-main/kernel/src/tcb_lists.c:70-82 | every join record, IO request, dump and mutex waiter names a thread that is in BLOCKED, so no wake-up misses |
| `KernelRuns.NoWaitOnTheDead` | tp-2024-2c-Los-Sin-Ideas-main/tp-2024-2c-Los-Sin-Ideas-main/kernel/src/join_thread.c:22-74 | no reachable join waits on a thread that is gone; a free mutex has no waiters, a taken one has a live owner outside its own queue, the counter is the queue length and names are unique |
| `KernelRuns.RunningIsAdmitted` | tp-2024-2c-Los-Sin-Ideas-main/tp-2024-2c-Los-Sin-Ideas-main/kernel/src/kernel_dispatch/kernel_dispatch.c:107-122 | the running thread's process is always an active one with a positive thread count |
| `KernelRuns.ThreadIdsCanCollide` | tp-2024-2c-Los-Sin-Ideas-main/tp-2024-2c-Los-Sin-Ideas-main/kernel/src/process.c:167-176 | a concrete run from start-up after which the next TID handed out belongs to a live thread |
| `KernelInvariant.CreateThreadKeepsIff` | tp-2024-2c-Los-Sin-Ideas-main/tp-2024-2c-Los-Sin-Ideas-main/kernel/src/process.c:167-203 | creating a thread keeps the invariant if and only if the process's thread count is not the TID of a live thread of it |
| `KernelInvariant.LockMissingKeepsIff` | tp-2024-2c-Los-Sin-Ideas-main/tp-2024-2c-Los-Sin-Ideas-main/kernel/src/mutexes/mutex_thread.c:51-69 | locking a mutex that does not exist ends the caller, and keeps the invariant if and only if nobody joins it and it owns no mutex of its process |
| `KernelRuns.MissingLockStrands` | tp-2024-2c-Los-Sin-Ideas-main/tp-2024-2c-Los-Sin-Ideas-main/kernel/src/mutexes/mutex_thread.c:49-69 | a concrete run from start-up in which thread 0 joins thread 1 and thread 1 locks a mutex nobody created: thread 1 is in EXIT and thread 0 stays BLOCKED on it |
| `KernelInvariant.ExitThreadKeeps` | tp-2024-2c-Los-Sin-Ideas-main/tp-2024-2c-Los-Sin-Ideas-main/kernel/src/kernel_dispatch/kernel_dispatch.c:255-287 | THREAD_EXIT keeps the invariant for everybody else |
| `KernelInvariant.ExitProcessKeeps` | tp-2024-2c-Los-Sin-Ideas-main/tp-2024-2c-Los-Sin-Ideas-main/kernel/src/kernel_dispatch/kernel_dispatch.c:146-194 | PROCESS_EXIT keeps the invariant when the running thread is thread 0 and its process has no other |
| `TeardownOrder.TeardownKeepsOrderIff` | tp-2024-2c-Los-Sin-Ideas-main/tp-2024-2c-Los-Sin-Ideas-main/kernel/src/kernel_dispatch/kernel_dispatch.c:146-194 | PROCESS_EXIT (and SEGMENTATION_FAULT) with any number of threads, with any completions in between: some course of the loop ends, with the invariant kept and no thread lost or duplicated, if and only if the process has one thread and it is the running thread 0; and any course that ends leaves that order if and only if so |
| `Teardown.WaitsCountReady` | tp-2024-2c-Los-Sin-Ideas-main/tp-2024-2c-Los-Sin-Ideas-main/kernel/src/kernel_dispatch/kernel_dispatch.c:155-176 | at any point of any course of the loop, the semaphore and the waits passed so far add up to the length of READY, which is less than the number of live threads |
| `Teardown.LoneProcessHangs` | tp-2024-2c-Los-Sin-Ideas-main/tp-2024-2c-Los-Sin-Ideas-main/kernel/src/kernel_dispatch/kernel_dispatch.c:155-176 | if only the running process has live threads, and its thread count is more than one, no course of the loop gets to its end, whatever IO and dumps complete meanwhile |
| `TeardownEnds.FinishesIff` | tp-2024-2c-Los-Sin-Ideas-main/tp-2024-2c-Los-Sin-Ideas-main/kernel/src/kernel_dispatch/kernel_dispatch.c:155-176 | with several threads some course gets to the end if and only if, at each turn, the semaphore, the completions still to come and the heirs of the mutexes released by earlier turns exceed the turns before it; without mutexes, if and only if READY, IO queue and dumps are together at least as many as the turns |
| `TeardownEnds.FinishesAloneIff` | tp-2024-2c-Los-Sin-Ideas-main/tp-2024-2c-Los-Sin-Ideas-main/kernel/src/kernel_dispatch/kernel_dispatch.c:155-176 | with no completion meanwhile each wait passes at once if and only if the semaphore and the heirs of earlier turns cover it; without mutexes, if and only if the semaphore is at least the number of turns |
| `Teardown.DoTeardownIs` | tp-2024-2c-Los-Sin-Ideas-main/tp-2024-2c-Los-Sin-Ideas-main/kernel/src/kernel_dispatch/kernel_dispatch.c:155-176 | the course without completions is exactly what `KernelMachine.Kernel.ProcessExit` computes, and exists exactly when each wait passes at once |
| `TeardownOrder.PairHangs` | tp-2024-2c-Los-Sin-Ideas-main/tp-2024-2c-Los-Sin-Ideas-main/kernel/src/kernel_dispatch/kernel_dispatch.c:155-176 | a concrete run from start-up to a process with threads 0 and 1 whose PROCESS_EXIT passes one wait and then has no move left, with thread 1 in READY and the semaphore at zero |
| `TeardownOrder.NeighbourStarves` | tp-2024-2c-Los-Sin-Ideas-main/tp-2024-2c-Los-Sin-Ideas-main/kernel/src/kernel_dispatch/kernel_dispatch.c:155-190 | a concrete run from start-up in which a second process's post lets the loop end: its thread and a thread of the ended process stay in READY with the semaphore at zero |
| `TeardownOrder.SurvivorIsLost` | tp-2024-2c-Los-Sin-Ideas-main/tp-2024-2c-Los-Sin-Ideas-main/kernel/src/kernel_dispatch/kernel_dispatch.c:155-190 | a concrete run from start-up in which thread 0 exits and thread 1 asks for PROCESS_EXIT: thread 0 is in EXIT twice and thread 1 in no list |
| `KernelInvariant.LockKeeps` | tp-2024-2c-Los-Sin-Ideas-main/tp-2024-2c-Los-Sin-Ideas-main/kernel/src/mutexes/mutex_thread.c:71-89 | taking or queueing for a mutex of one's own process keeps the invariant and the live threads |
| `KernelInvariant.UnlockKeeps` | tp-2024-2c-Los-Sin-Ideas-main/tp-2024-2c-Los-Sin-Ideas-main/kernel/src/mutexes/mutex_thread.c:91-123 | unlocking keeps the invariant, whether or not it takes effect |
| `KernelInvariant.AdmitHeadKeeps` | tp-2024-2c-Los-Sin-Ideas-main/tp-2024-2c-Los-Sin-Ideas-main/kernel/src/long_term_list.c:53-71 | admitting the head of NEW adds exactly its first thread and keeps the invariant |
| `IoRace.CompletionBetweenHalvesIff` | tp-2024-2c-Los-Sin-Ideas-main/tp-2024-2c-Los-Sin-Ideas-main/kernel/src/io_device/io_device.c:48-65 | if the device finishes a request between the post and the insertion in BLOCKED, the invariant survives if and only if another request was already queued |
| `IoRace.FirstInLine` | tp-2024-2c-Los-Sin-Ideas-main/tp-2024-2c-Los-Sin-Ideas-main/kernel/src/io_device/io_device.c:94-103 | with nothing else queued the request is dropped and its thread blocks with nothing left that could wake it |
| `KernelHandoff.UnlockJoinsEffect` | tp-2024-2c-Los-Sin-Ideas-main/tp-2024-2c-Los-Sin-Ideas-main/kernel/src/join_thread.c:46-74 | removal while iterating leaves exactly the records about other threads in order, and readies every matching waiter in join order with one post each |
| `KernelHandoff.ReleaseFromEffect` | tp-2024-2c-Los-Sin-Ideas-main/tp-2024-2c-Los-Sin-Ideas-main/kernel/src/mutexes/mutex_thread.c:125-139 | each mutex held under the TID passes to its first waiter or becomes free, the others are untouched, and READY grows by those waiters in creation order |
| `KernelHandoff.ExitThreadEffect` | tp-2024-2c-Los-Sin-Ideas-main/tp-2024-2c-Los-Sin-Ideas-main/kernel/src/kernel_dispatch/kernel_dispatch.c:255-287 | a finishing thread readies its joiners and then its heirs, in order and nobody else, and is left owning nothing and awaited by nobody |
| `KernelHandoff.QueueStep` | tp-2024-2c-Los-Sin-Ideas-main/tp-2024-2c-Los-Sin-Ideas-main/kernel/src/mutexes/mutex_thread.c:91-123 | any step either hands the mutex to its first waiter or leaves the queue as a prefix of the new one |
| `KernelHandoff.WaiterAdvances` | tp-2024-2c-Los-Sin-Ideas-main/tp-2024-2c-Los-Sin-Ideas-main/kernel/src/mutexes/mutex_thread.c:91-123 | over any run a waiter moves one place per release of its mutex and never loses its place |
| `KernelHandoff.WaiterInherits` | tp-2024-2c-Los-Sin-Ideas-main/tp-2024-2c-Los-Sin-Ideas-main/kernel/src/mutexes/mutex_thread.c:91-123 | the waiter at position p becomes the owner, and ready, at exactly the (p+1)-th release |
| `KernelHandoff.UnlockNeedsOwnerIff` | tp-2024-2c-Los-Sin-Ideas-main/tp-2024-2c-Los-Sin-Ideas-main/kernel/src/mutexes/mutex_thread.c:91-99 | an unlock takes effect exactly for the owner if and only if the caller is of the mutex's process or its TID differs from the owner's |
| `KernelHandoff.ExitNeedsOwnerIff` | tp-2024-2c-Los-Sin-Ideas-main/tp-2024-2c-Los-Sin-Ideas-main/kernel/src/mutexes/mutex_thread.c:125-139 | THREAD_EXIT and PROCESS_EXIT hand over exactly the mutexes the thread owns if and only if no mutex of another process is held under its TID |
| `KernelHandoff.ForeignUnlockHappens` | tp-2024-2c-Los-Sin-Ideas-main/tp-2024-2c-Los-Sin-Ideas-main/kernel/src/mutexes/mutex_thread.c:95-99 | a concrete run from start-up to a state where a thread of one process frees a mutex that another process holds, by MUTEX_UNLOCK, by THREAD_EXIT and by PROCESS_EXIT |
| `KernelEffects.CancelEffect` | tp-2024-2c-Los-Sin-Ideas-main/tp-2024-2c-Los-Sin-Ideas-main/kernel/src/kernel_dispatch/kernel_dispatch.c:242-253 | THREAD_CANCEL wakes everybody who waits for the target, in join order with one post each, and drops exactly their records; the target stays live where it was and everything else is equal |
| `KernelEffects.ExitProcessEffect` | tp-2024-2c-Los-Sin-Ideas-main/tp-2024-2c-Los-Sin-Ideas-main/kernel/src/kernel_dispatch/kernel_dispatch.c:155-176 | the exit of a lone thread readies the new owners of its mutexes in creation order and touches no join |
| `KernelEffects.ReadyGrows` | tp-2024-2c-Los-Sin-Ideas-main/tp-2024-2c-Los-Sin-Ideas-main/kernel/src/kernel_dispatch/kernel_dispatch.c:84-460 | every step but a dispatch makes ready exactly the threads whose wait it ends (or the new or interrupted one), at the tail of READY and in the stated order |
| `KernelEffects.RunsUnlessGivesWay` | tp-2024-2c-Los-Sin-Ideas-main/tp-2024-2c-Los-Sin-Ideas-main/kernel/src/kernel_dispatch/kernel_dispatch.c:132-460 | the running thread goes on after a syscall unless it finishes, is interrupted, asks for IO or a dump, joins another live thread, or locks a mutex that is missing or another's; nobody else's step takes the processor from it |
| `KernelEffects.OnlyDispatchRuns` | tp-2024-2c-Los-Sin-Ideas-main/tp-2024-2c-Los-Sin-Ideas-main/kernel/src/kernel_dispatch/kernel_dispatch.c:88-104 | with nobody running only a dispatch makes a thread run: the head of READY under FIFO, otherwise the earliest of the smallest priority values |
| `KernelEffects.JoinsChange` | tp-2024-2c-Los-Sin-Ideas-main/tp-2024-2c-Los-Sin-Ideas-main/kernel/src/join_thread.c:22-74 | join records begin only with a join that gives way and end only by the exit or cancellation of the thread waited for |
| `KernelEffects.RequestsChange` | tp-2024-2c-Los-Sin-Ideas-main/tp-2024-2c-Los-Sin-Ideas-main/kernel/src/io_device/io_device.c:36-110 | IO requests queue up with their times and leave from the head, a finished dump leaves its place, and no other step touches either list |
| `KernelEffects.MutexesChange` | tp-2024-2c-Los-Sin-Ideas-main/tp-2024-2c-Los-Sin-Ideas-main/kernel/src/mutexes/mutex_thread.c:24-139 | pointwise over every mutex and step: a lock takes it or queues the caller at the tail, the holder's unlock and exit hand it on or free it, a creation under a new name appends a free one of the caller's process, and nothing else changes one |
| `KernelEffects.PrioritiesKept` | tp-2024-2c-Los-Sin-Ideas-main/tp-2024-2c-Los-Sin-Ideas-main/kernel/src/tcb_lists.c:70-82 | over any run the TCBs in READY, BLOCKED, the processor and EXIT are the ones there were and the ones created, each with the priority it was created with |
| `KernelEffects.CoveredIff` | tp-2024-2c-Los-Sin-Ideas-main/tp-2024-2c-Los-Sin-Ideas-main/kernel/src/kernel_dispatch/kernel_dispatch.c:84-460 | which steps the model covers, without the kernel's searches and semaphores: every syscall, except a creation or a lock that breaks the invariant, a foreign or missing mutex, a cancellation that finds nobody, and the end of a process with more than its thread 0 |
| `KernelQueues.FifoServesInOrder` | tp-2024-2c-Los-Sin-Ideas-main/tp-2024-2c-Los-Sin-Ideas-main/kernel/src/scheduler.c:49-59 | over any run decided by FIFO the threads dispatched and those still in READY are, in order, those that waited and those that arrived since |
| `KernelQueues.IoServedInOrder` | tp-2024-2c-Los-Sin-Ideas-main/tp-2024-2c-Los-Sin-Ideas-main/kernel/src/io_device/io_device.c:36-110 | over any run the requests served and those still queued are, in order, those queued before and those asked for since, with their times |
| `KernelQueues.AdmittedInOrder` | tp-2024-2c-Los-Sin-Ideas-main/tp-2024-2c-Los-Sin-Ideas-main/kernel/src/long_term_list.c:28-81 | over any run the processes admitted and those still in NEW are, in order, those that waited and those asked for since, under consecutive PIDs and with the size and priority asked for |
| `KernelQueues.CountsAreExact` | tp-2024-2c-Los-Sin-Ideas-main/tp-2024-2c-Los-Sin-Ideas-main/kernel/src/process.c:167-203 | in every reachable state a process's thread count is its number of live threads, plus those that ended by locking a mutex nobody created |
| `Scheduling.DecisionAdvances` | tp-2024-2c-Los-Sin-Ideas-main/tp-2024-2c-Los-Sin-Ideas-main/kernel/src/scheduler.c:61-87 | a priority decision takes the thread or lowers by one the number of READY entries ahead of it |
| `Scheduling.ArrivalsKeepRank` | tp-2024-2c-Los-Sin-Ideas-main/tp-2024-2c-Los-Sin-Ideas-main/kernel/src/scheduler.c:61-87 | arrivals that are not strictly better leave that number as it is |
| `Scheduling.ReadyAppends` | tp-2024-2c-Los-Sin-Ideas-main/tp-2024-2c-Los-Sin-Ideas-main/kernel/src/kernel_dispatch/kernel_dispatch.c:84-460 | every step but a dispatch leaves READY as a prefix of the new one |
| `Scheduling.BoundedWaiting` | tp-2024-2c-Los-Sin-Ideas-main/tp-2024-2c-Los-Sin-Ideas-main/kernel/src/scheduler.c:61-113 | over any run a READY thread with r entries ahead runs within r + 1 decisions when nobody strictly better becomes ready |
| `KernelMachine.RemoveTcb` | tp-2024-2c-Los-Sin-Ideas-main/tp-2024-2c-Los-Sin-Ideas-main/kernel/src/tcb_lists.c:52-57 | removes the first TCB with that (PID, TID), or nothing |
| `KernelMachine.FindTcb` | tp-2024-2c-Los-Sin-Ideas-main/tp-2024-2c-Los-Sin-Ideas-main/kernel/src/tcb_lists.c:59-64 | answers whether the list has a TCB with that (PID, TID) |
| `KernelMachine.Kernel.MoveToReady` | tp-2024-2c-Los-Sin-Ideas-main/tp-2024-2c-Los-Sin-Ideas-main/kernel/src/tcb_lists.c:70-82 | BLOCKED loses the thread and READY gains it at its tail; a missing thread changes nothing |
| `KernelMachine.Kernel.GetMutex` | tp-2024-2c-Los-Sin-Ideas-main/tp-2024-2c-Los-Sin-Ideas-main/kernel/src/mutexes/mutex_thread.c:141-158 | position of the first mutex with that name, or the length |
| `KernelMachine.Kernel.MutexCreate` | tp-2024-2c-Los-Sin-Ideas-main/tp-2024-2c-Los-Sin-Ideas-main/kernel/src/mutexes/mutex_thread.c:24-47 | appends a free mutex of the process, or does nothing when the name exists |
| `KernelMachine.Kernel.MutexLock` | tp-2024-2c-Los-Sin-Ideas-main/tp-2024-2c-Los-Sin-Ideas-main/kernel/src/mutexes/mutex_thread.c:49-89 | takes a free or already held mutex; otherwise the thread joins the queue's tail and BLOCKED; a missing mutex sends it to EXIT |
| `KernelMachine.Kernel.BlockInMutexList` | tp-2024-2c-Los-Sin-Ideas-main/tp-2024-2c-Los-Sin-Ideas-main/kernel/src/mutexes/mutex_thread.c:173-183 | tail of BLOCKED, tail of the queue, counter up by one, nothing else |
| `KernelMachine.Kernel.MutexUnlock` | tp-2024-2c-Los-Sin-Ideas-main/tp-2024-2c-Los-Sin-Ideas-main/kernel/src/mutexes/mutex_thread.c:91-123 | hand-off to the first waiter with one post, or free; no change unless the TID matches |
| `KernelMachine.Kernel.ReleaseAllMutexes` | tp-2024-2c-Los-Sin-Ideas-main/tp-2024-2c-Los-Sin-Ideas-main/kernel/src/mutexes/mutex_thread.c:125-139 | the loop over all mutexes is the release of every one held under that TID |
| `KernelMachine.Kernel.AddJoin` | tp-2024-2c-Los-Sin-Ideas-main/tp-2024-2c-Los-Sin-Ideas-main/kernel/src/join_thread.c:22-43 | one record and one blocked thread at the tails |
| `KernelMachine.Kernel.UnlockJoins` | tp-2024-2c-Los-Sin-Ideas-main/tp-2024-2c-Los-Sin-Ideas-main/kernel/src/join_thread.c:46-74 | the index-adjusting loop is the recursive removal of matching records |
| `KernelMachine.Kernel.ScheduleFifo` | tp-2024-2c-Los-Sin-Ideas-main/tp-2024-2c-Los-Sin-Ideas-main/kernel/src/scheduler.c:49-59 | pops the head of READY, or nothing |
| `KernelMachine.Kernel.SchedulePriorities` | tp-2024-2c-Los-Sin-Ideas-main/tp-2024-2c-Los-Sin-Ideas-main/kernel/src/scheduler.c:61-87 | removes the earliest thread of the smallest priority value |
| `KernelMachine.Kernel.RequestIo` | tp-2024-2c-Los-Sin-Ideas-main/tp-2024-2c-Los-Sin-Ideas-main/kernel/src/io_device/io_device.c:36-68 | request queued and posted, thread in BLOCKED, as one step |
| `KernelMachine.Kernel.IoTurn` | tp-2024-2c-Los-Sin-Ideas-main/tp-2024-2c-Los-Sin-Ideas-main/kernel/src/io_device/io_device.c:71-117 | the oldest request's thread goes from BLOCKED to READY with one post; an empty queue and a missing thread are survived without one |
| `KernelMachine.Kernel.DumpAnswered` | tp-2024-2c-Los-Sin-Ideas-main/tp-2024-2c-Los-Sin-Ideas-main/kernel/src/syscalls_operations/memory_operations.c:55-69 | a successful dump readies its thread with one post |
| `KernelMachine.Kernel.CreateProcess` | tp-2024-2c-Los-Sin-Ideas-main/tp-2024-2c-Los-Sin-Ideas-main/kernel/src/process.c:158-165 | a process with the next PID and its first-thread parameters at the tails of their lists |
| `KernelMachine.Kernel.CreateThread` | tp-2024-2c-Los-Sin-Ideas-main/tp-2024-2c-Los-Sin-Ideas-main/kernel/src/process.c:167-203 | the thread count goes up in any case; with memory's consent a READY thread with the old count as TID and one post, without it nothing else |
| `KernelMachine.Kernel.TryCreateNewProcess` | tp-2024-2c-Los-Sin-Ideas-main/tp-2024-2c-Los-Sin-Ideas-main/kernel/src/long_term_list.c:28-81 | true exactly when NEW has a head, its parameters are there and memory accepts it; the head is admitted with its own parameters, or, if memory refuses its first thread, leaves NEW without becoming active; false changes nothing |
| `KernelMachine.Kernel.NextThread` | tp-2024-2c-Los-Sin-Ideas-main/tp-2024-2c-Los-Sin-Ideas-main/kernel/src/kernel_dispatch/kernel_dispatch.c:87-122 | the same thread goes on, or READY's pick becomes the running one after one wait; removing it from READY again changes nothing |
| `KernelMachine.Kernel.ThreadJoin` | tp-2024-2c-Los-Sin-Ideas-main/tp-2024-2c-Los-Sin-Ideas-main/kernel/src/kernel_dispatch/kernel_dispatch.c:213-240 | blocks on a live thread of the process, and goes on otherwise |
| `KernelMachine.Kernel.ThreadExit` | tp-2024-2c-Los-Sin-Ideas-main/tp-2024-2c-Los-Sin-Ideas-main/kernel/src/kernel_dispatch/kernel_dispatch.c:255-287 | EXIT, thread count down by one with unsigned wrap, joins woken, mutexes released, nobody running |
| `KernelMachine.Kernel.ProcessExit` | tp-2024-2c-Los-Sin-Ideas-main/tp-2024-2c-Los-Sin-Ideas-main/kernel/src/kernel_dispatch/kernel_dispatch.c:146-194 | one turn of the teardown loop for each entry of the process's thread array, each waiting on the thread semaphore when there are several: EXIT, mutexes released; then the process is no longer active; stated for exits whose waits all pass at once (`TeardownEnds.FinishesAloneIff` says which) |
| `KernelMachine.Kernel.TearDownOne` | tp-2024-2c-Los-Sin-Ideas-main/tp-2024-2c-Los-Sin-Ideas-main/kernel/src/kernel_dispatch/kernel_dispatch.c:155-176 | one turn: a wait if asked for, the entry to EXIT, the mutexes held under its TID released |
| `KernelMachine.Kernel.ThreadCancel` | tp-2024-2c-Los-Sin-Ideas-main/tp-2024-2c-Los-Sin-Ideas-main/kernel/src/kernel_dispatch/kernel_dispatch.c:242-253 | the joiners of the target wake up in join order; the target stays where it is |
| `KernelMachine.Kernel.DumpRequested` | tp-2024-2c-Los-Sin-Ideas-main/tp-2024-2c-Los-Sin-Ideas-main/kernel/src/kernel_dispatch/kernel_dispatch.c:332-382 | the thread waits in BLOCKED for its dump |
| `KernelMachine.Kernel.Interrupted` | tp-2024-2c-Los-Sin-Ideas-main/tp-2024-2c-Los-Sin-Ideas-main/kernel/src/kernel_dispatch/kernel_dispatch.c:438-450 | back to READY's tail with one post |
| `KernelMachine.Kernel.ServeRunning` | tp-2024-2c-Los-Sin-Ideas-main/tp-2024-2c-Los-Sin-Ideas-main/kernel/src/kernel_dispatch/kernel_dispatch.c:130-460 | each syscall of the running thread has exactly its stated effect |
| `KernelMachine.Kernel.Serve` | tp-2024-2c-Los-Sin-Ideas-main/tp-2024-2c-Los-Sin-Ideas-main/kernel/src/kernel_dispatch/kernel_dispatch.c:84-460 | any step has exactly its stated effect and keeps the invariant |
| `Words.ReadAfterWrite` | tp-2024-2c-Los-Sin-Ideas-main/tp-2024-2c-Los-Sin-Ideas-main/memoria/src/mem_buffer.c:18-27 | a word reads back as written and no byte outside its four changes |
| `Words.ReadElsewhere` | tp-2024-2c-Los-Sin-Ideas-main/tp-2024-2c-Los-Sin-Ideas-main/memoria/src/mem_buffer.c:18-27 | words that do not overlap are unaffected |
| `Words.LittleEndianWrite` | tp-2024-2c-Los-Sin-Ideas-main/tp-2024-2c-Los-Sin-Ideas-main/memoria/src/mem_buffer.c:18-27 | the byte at offset k of a stored word is its digit of weight 256^k |
| `Words.LittleEndianRead` | tp-2024-2c-Los-Sin-Ideas-main/tp-2024-2c-Los-Sin-Ideas-main/memoria/src/mem_buffer.c:18-27 | a word read is the sum of its four bytes weighted 1, 256, 256^2 and 256^3 |
| `Cpu.Machine.SetValue` | tp-2024-2c-Los-Sin-Ideas-main/tp-2024-2c-Los-Sin-Ideas-main/cpu/src/ciclo_instruccion/instructions/instructions.c:129-162 | writes the named register only; an unknown name writes nothing |
| `Cpu.Machine.GetValue` | tp-2024-2c-Los-Sin-Ideas-main/tp-2024-2c-Los-Sin-Ideas-main/cpu/src/ciclo_instruccion/instructions/instructions.c:165-202 | reads the named register; an unknown name reads as all ones |
| `Cpu.Machine.SumInstruction` | tp-2024-2c-Los-Sin-Ideas-main/tp-2024-2c-Los-Sin-Ideas-main/cpu/src/ciclo_instruccion/instructions/instructions.c:12-21 | sum modulo 2^32 |
| `Cpu.Machine.SubInstruction` | tp-2024-2c-Los-Sin-Ideas-main/tp-2024-2c-Los-Sin-Ideas-main/cpu/src/ciclo_instruccion/instructions/instructions.c:23-38 | difference, or zero when it would be negative |
| `Cpu.Machine.JnzInstruction` | tp-2024-2c-Los-Sin-Ideas-main/tp-2024-2c-Los-Sin-Ideas-main/cpu/src/ciclo_instruccion/instructions/instructions.c:47-59 | jumps exactly when the register is not zero |
| `Cpu.Machine.TranslateAddress` | tp-2024-2c-Los-Sin-Ideas-main/tp-2024-2c-Los-Sin-Ideas-main/cpu/src/mmu/mmu.c:3-19 | the fault code from LIMITE on; below it base plus logical address, less 2^32 when that does not fit |
| `Cpu.FaultIffPastLimit` | tp-2024-2c-Los-Sin-Ideas-main/tp-2024-2c-Los-Sin-Ideas-main/cpu/src/mmu/mmu.c:3-19 | for a process that ends below the fault code, an access faults if and only if its address reaches LIMITE, and no two addresses below it meet |
| `CpuLaws.WhenCyclesStop` | tp-2024-2c-Los-Sin-Ideas-main/tp-2024-2c-Los-Sin-Ideas-main/cpu/src/ciclo_instruccion/instructions/instructions.c:61-107 | a line of the script faults if and only if it is READ_MEM or WRITE_MEM and its address reaches LIMITE, is undefined if and only if it passes the end of memory below LIMITE, and traps if and only if it is a syscall; a fault and a trap leave memory and registers as they were |
| `CpuLaws.ReadingLines` | tp-2024-2c-Los-Sin-Ideas-main/tp-2024-2c-Los-Sin-Ideas-main/cpu/src/ciclo_instruccion/instructions/instructions.c:84-107 | below LIMITE READ_MEM puts the little-endian word at base + address into the register, and changes no other register and no byte |
| `CpuLaws.WritingLines` | tp-2024-2c-Los-Sin-Ideas-main/tp-2024-2c-Los-Sin-Ideas-main/cpu/src/ciclo_instruccion/instructions/instructions.c:61-82 | below LIMITE WRITE_MEM stores the register's bytes at base + address, least significant first, and changes no other byte and no register |
| `CpuLaws.ComputingLines` | tp-2024-2c-Los-Sin-Ideas-main/tp-2024-2c-Los-Sin-Ideas-main/cpu/src/ciclo_instruccion/instructions/instructions.c:5-59 | SET, SUM, SUB, LOG and JNZ by their effect on the named register and the line, in plain integers: sums wrap at 2^32, differences stop at 0, and no other register changes |
| `CpuLaws.RegisterFileLaws` | tp-2024-2c-Los-Sin-Ideas-main/tp-2024-2c-Los-Sin-Ideas-main/cpu/src/ciclo_instruccion/instructions/instructions.c:109-202 | each name reads its own register, a register just written reads back, the others keep their values, and an unknown name reads all ones |
| `CpuLaws.FreshIsZero` | tp-2024-2c-Los-Sin-Ideas-main/tp-2024-2c-Los-Sin-Ideas-main/memoria/src/mem_structs.c:26-37 | a new thread starts at line 0 with every register at zero |
| `Cpu.Machine.StoreWord` | tp-2024-2c-Los-Sin-Ideas-main/tp-2024-2c-Los-Sin-Ideas-main/memoria/src/mem_buffer.c:18-20 | four little-endian bytes in place, all others untouched |
| `Cpu.Machine.LoadWord` | tp-2024-2c-Los-Sin-Ideas-main/tp-2024-2c-Los-Sin-Ideas-main/memoria/src/mem_buffer.c:22-27 | the little-endian word at an address |
| `Cpu.Machine.DecodeAndExecute` | tp-2024-2c-Los-Sin-Ideas-main/tp-2024-2c-Los-Sin-Ideas-main/cpu/src/ciclo_instruccion/ciclo_instruccion.c:18-235 | one instruction on registers and memory in place, and whether the cycle goes on |
| `Cpu.Machine.ExecuteInstructionCycle` | tp-2024-2c-Los-Sin-Ideas-main/tp-2024-2c-Los-Sin-Ideas-main/cpu/src/ciclo_instruccion/ciclo_instruccion.c:238-275 | the cycle up to the first fault, syscall or interruption is the instructions run one by one |
| `Cpu.CyclesCompose` | tp-2024-2c-Los-Sin-Ideas-main/tp-2024-2c-Los-Sin-Ideas-main/cpu/src/ciclo_instruccion/ciclo_instruccion.c:238-275 | running a then b instructions is running a + b |
| `Cpu.CyclesKeepBounds` | tp-2024-2c-Los-Sin-Ideas-main/tp-2024-2c-Los-Sin-Ideas-main/cpu/src/ciclo_instruccion/instructions/instructions.c:5-106 | no script ever changes BASE or LIMITE |
| `Fibo.FibonacciInMemory` | tp-2024-2c-Los-Sin-Ideas-main/tp-2024-2c-Los-Sin-Ideas-main/memoria/scripts/FIBO_10:1-18 | for every loop count n >= 1 the script reaches DUMP_MEMORY with word i of the process equal to fib(i) mod 2^32 for i < 2n, and every other byte unchanged |
| `Partitions.Select` | tp-2024-2c-Los-Sin-Ideas-main/tp-2024-2c-Los-Sin-Ideas-main/memoria/src/partitions/partitions.c:31-97 | FIRST takes the earliest fitting partition, BEST the earliest smallest, WORST the earliest largest; none is left over when none is taken |
| `Partitions.WhenEachCriterionSucceeds` | tp-2024-2c-Los-Sin-Ideas-main/tp-2024-2c-Los-Sin-Ideas-main/memoria/src/partitions/partitions.c:37-69 | exactly when each criterion finds a partition, and that the three agree on positive requests below INT_MAX |
| `DynamicMemory.FirstRequestIff` | tp-2024-2c-Los-Sin-Ideas-main/tp-2024-2c-Los-Sin-Ideas-main/memoria/src/partitions/partitions.c:37-69 | which first requests an empty memory accepts: under FIRST those that fit, under BEST none of any size once it has INT_MAX bytes or more, under WORST none when it has no bytes |
| `Partitions.RebuildTilesIff` | tp-2024-2c-Los-Sin-Ideas-main/tp-2024-2c-Los-Sin-Ideas-main/memoria/src/partitions/mem_dynamic_partition.c:16-69 | the rebuilt list covers the memory contiguously if and only if the processes in list order are laid out one after the other |
| `LocalEdits.CreateCarvesTheHole` | tp-2024-2c-Los-Sin-Ideas-main/tp-2024-2c-Los-Sin-Ideas-main/memoria/src/partitions/mem_dynamic_partition.c:16-69 | rebuilding after a creation gives the old list with the hole replaced by an occupied piece at its low end and the remainder, if any |
| `LocalEdits.DeleteFreesAndMerges` | tp-2024-2c-Los-Sin-Ideas-main/tp-2024-2c-Los-Sin-Ideas-main/memoria/src/partitions/mem_dynamic_partition.c:16-69 | rebuilding after a deletion gives the old list with the partition freed and merged with its free neighbours |
| `DynamicMemory.CreateIsLocal` | tp-2024-2c-Los-Sin-Ideas-main/tp-2024-2c-Los-Sin-Ideas-main/memoria/src/mem_structs.c:247-270 | a creation succeeds exactly when a hole is selected, carves it and keeps the layout; a failed one changes nothing |
| `DynamicMemory.DeleteIsLocal` | tp-2024-2c-Los-Sin-Ideas-main/tp-2024-2c-Los-Sin-Ideas-main/memoria/src/mem_structs.c:108-151 | a deletion frees and merges the process's own partition and keeps the layout |
| `DynamicMemory.OtherEventsKeepList` | tp-2024-2c-Los-Sin-Ideas-main/tp-2024-2c-Los-Sin-Ideas-main/memoria/src/mem_structs.c:153-186 | thread creation, thread exit with its rebuild, and write-backs never change the list |
| `DynamicMemory.TilingOverAllRuns` | tp-2024-2c-Los-Sin-Ideas-main/tp-2024-2c-Los-Sin-Ideas-main/memoria/src/partitions/mem_dynamic_partition.c:16-79 | after any requests, sizes of zero included, partitions tile the memory, no two adjacent ones are free, the occupied ones are the live processes in address order, and sizes sum to the total |
| `DynamicMemory.BasesStayAligned` | tp-2024-2c-Los-Sin-Ideas-main/tp-2024-2c-Los-Sin-Ideas-main/memoria/src/mem_structs.c:147-160 | with word-multiple sizes every process ever reachable starts and ends on a word boundary |
| `DynamicMemory.AnySortAgrees` | tp-2024-2c-Los-Sin-Ideas-main/tp-2024-2c-Los-Sin-Ideas-main/memoria/src/partitions/mem_dynamic_partition.c:28-29 | on distinct bases any sort by base gives the same list as the one modelled |
| `AnySort.EverySortTilesIff` | tp-2024-2c-Los-Sin-Ideas-main/tp-2024-2c-Los-Sin-Ideas-main/memoria/src/partitions/mem_dynamic_partition.c:10-29 | the rebuilt list tiles the memory whatever order the library's sort gives to equal bases if and only if no process that holds a byte shares its base with another |
| `AnySort.CreationCrowdsIff` | tp-2024-2c-Los-Sin-Ideas-main/tp-2024-2c-Los-Sin-Ideas-main/memoria/src/partitions/mem_dynamic_partition.c:10-29 | a successful creation brings such a sharing about if and only if it asks for at least one byte and some (empty) process starts where its hole does |
| `AnySort.ZeroSizeMeetsTheSort` | tp-2024-2c-Los-Sin-Ideas-main/tp-2024-2c-Los-Sin-Ideas-main/memoria/src/partitions/mem_dynamic_partition.c:10-29 | two creations from an empty memory, the first of size zero, after which a sort by base gives a list that does not tile |
| `AnySort.PositiveRunsTileUnderAnySort` | tp-2024-2c-Los-Sin-Ideas-main/tp-2024-2c-Los-Sin-Ideas-main/memoria/src/partitions/mem_dynamic_partition.c:10-29 | with positive sizes every reachable process list tiles under every sort by base |
| `FixedMemory.FixedOverAllRuns` | tp-2024-2c-Los-Sin-Ideas-main/tp-2024-2c-Los-Sin-Ideas-main/memoria/src/partitions/partitions.c:13-97 | over all requests bases and sizes stay the configured prefix sums, free means PID -1, and live processes and occupied partitions pair up one to one, each process inside its partition |
| `FixedMemory.CreateFixedIff` | tp-2024-2c-Los-Sin-Ideas-main/tp-2024-2c-Los-Sin-Ideas-main/memoria/src/mem_structs.c:223-281 | in the fixed scheme a new process becomes known if and only if a free partition of at least its size exists (below INT_MAX under BEST, above 0 under WORST); then exactly one partition changes, from free to that PID, the one the criterion names with ties to the first, and otherwise nothing does |
| `FixedMemory.DeleteFixedFrees` | tp-2024-2c-Los-Sin-Ideas-main/tp-2024-2c-Los-Sin-Ideas-main/memoria/src/mem_structs.c:108-151 | deleting a process frees exactly the partition that bears its PID and takes exactly that process off the list |
| `FixedMemory.BuildStaticLayout` | tp-2024-2c-Los-Sin-Ideas-main/tp-2024-2c-Los-Sin-Ideas-main/memoria/src/partitions/partitions.c:13-29 | the static list starts with prefix-sum bases, all free |
| `MemoryMachine.BuildStaticPartitions` | tp-2024-2c-Los-Sin-Ideas-main/tp-2024-2c-Los-Sin-Ideas-main/memoria/src/partitions/partitions.c:13-29 | the loop builds that list |
| `MemoryMachine.MemoryModule.SelectPartition` | tp-2024-2c-Los-Sin-Ideas-main/tp-2024-2c-Los-Sin-Ideas-main/memoria/src/partitions/partitions.c:37-69 | the three search loops select what the criterion defines |
| `MemoryMachine.MemoryModule.AllocateInPartition` | tp-2024-2c-Los-Sin-Ideas-main/tp-2024-2c-Los-Sin-Ideas-main/memoria/src/partitions/partitions.c:31-97 | only the selected partition changes: occupied, with the PID |
| `MemoryMachine.MemoryModule.SortProcesses` | tp-2024-2c-Los-Sin-Ideas-main/tp-2024-2c-Los-Sin-Ideas-main/memoria/src/partitions/mem_dynamic_partition.c:10-29 | the process list is left in base order, equal bases in arrival order |
| `MemoryMachine.MemoryModule.BuildDynamicPartitions` | tp-2024-2c-Los-Sin-Ideas-main/tp-2024-2c-Los-Sin-Ideas-main/memoria/src/partitions/mem_dynamic_partition.c:16-69 | the loop with its running base builds the list of gaps and processes |
| `MemoryMachine.MemoryModule.UpdateDynamicPartitions` | tp-2024-2c-Los-Sin-Ideas-main/tp-2024-2c-Los-Sin-Ideas-main/memoria/src/partitions/mem_dynamic_partition.c:71-79 | processes sorted, partition list replaced by the rebuilt one |
| `MemoryMachine.MemoryModule.FindProcess` | tp-2024-2c-Los-Sin-Ideas-main/tp-2024-2c-Los-Sin-Ideas-main/memoria/src/mem_structs.c:95-106 | first process with that PID, or the length |
| `MemoryMachine.MemoryModule.CreateProcess` | tp-2024-2c-Los-Sin-Ideas-main/tp-2024-2c-Los-Sin-Ideas-main/memoria/src/mem_structs.c:223-281 | process added in the selected partition, or refused with nothing changed |
| `MemoryMachine.MemoryModule.DeleteProcess` | tp-2024-2c-Los-Sin-Ideas-main/tp-2024-2c-Los-Sin-Ideas-main/memoria/src/mem_structs.c:108-151 | process removed; its partition freed, or the list rebuilt |
| `MemoryMachine.MemoryModule.AddThreadTo` | tp-2024-2c-Los-Sin-Ideas-main/tp-2024-2c-Los-Sin-Ideas-main/memoria/src/mem_structs.c:284-300 | a fresh thread at the tail of the process's threads, or refused |
| `MemoryMachine.MemoryModule.DeleteThread` | tp-2024-2c-Los-Sin-Ideas-main/tp-2024-2c-Los-Sin-Ideas-main/memoria/src/mem_structs.c:153-186 | the thread's record removed, the list rebuilt in the dynamic scheme |
| `MemoryMachine.MemoryModule.GetRegisters` | tp-2024-2c-Los-Sin-Ideas-main/tp-2024-2c-Los-Sin-Ideas-main/memoria/src/mem_structs.c:317-358 | the thread's registers with its process's bounds, or nothing |
| `MemoryMachine.MemoryModule.UpdateRegisters` | tp-2024-2c-Los-Sin-Ideas-main/tp-2024-2c-Los-Sin-Ideas-main/memoria/src/mem_structs.c:495-537 | the process's bounds and the thread's registers overwritten, no other record |
| `Contexts.LoadAfterSave` | tp-2024-2c-Los-Sin-Ideas-main/tp-2024-2c-Los-Sin-Ideas-main/memoria/src/mem_structs.c:317-358 | loading gives back exactly the context saved |
| `Contexts.SaveMovesTheProcess` | tp-2024-2c-Los-Sin-Ideas-main/tp-2024-2c-Los-Sin-Ideas-main/memoria/src/mem_structs.c:495-538 | whatever context is saved, every thread of that process is loaded with the saved bounds from then on, the thread itself with its registers, and the other processes as before |
| `Contexts.ContextSpared` | tp-2024-2c-Los-Sin-Ideas-main/tp-2024-2c-Los-Sin-Ideas-main/memoria/src/mem_structs.c:495-537 | a request about other threads leaves a thread's context as it is, also across sorting and rebuilding |
| `Contexts.TurnWritesBack` | tp-2024-2c-Los-Sin-Ideas-main/tp-2024-2c-Los-Sin-Ideas-main/cpu/src/ciclo_instruccion/ciclo_instruccion.c:238-275 | whatever the script, a turn writes back its process's own BASE and LIMITE |
| `Contexts.SwitchesAreTransparent` | tp-2024-2c-Los-Sin-Ideas-main/tp-2024-2c-Los-Sin-Ideas-main/cpu/src/ciclo_instruccion/ciclo_instruccion.c:238-275 | over any interleaving of turns and memory requests a thread next loads exactly the context its own last turn ended with, BASE and LIMITE unchanged |
| `WholeSystem.ActAgrees` | tp-2024-2c-Los-Sin-Ideas-main/tp-2024-2c-Los-Sin-Ideas-main/kernel/src/kernel_dispatch/kernel_dispatch.c:87-130 | one action of kernel, CPU and memory together (every syscall, admission and segmentation faults included) and of the machine where threads own their registers: both can act or neither, and they agree afterwards |
| `WholeSystem.SystemRefinesThreads` | tp-2024-2c-Los-Sin-Ideas-main/tp-2024-2c-Los-Sin-Ideas-main/cpu/src/ciclo_instruccion/ciclo_instruccion.c:126-275 | any run of the one is a run of the other, ending in agreeing states |
| `WholeSystem.PowerAgrees` | tp-2024-2c-Los-Sin-Ideas-main/tp-2024-2c-Los-Sin-Ideas-main/kernel/src/kernel.c:256-269 | at power-on, first process created and admitted if memory takes it, the two machines agree, so they do in every state reached from start-up |
| `SystemRuns.SystemRunsTheKernel` | tp-2024-2c-Los-Sin-Ideas-main/tp-2024-2c-Los-Sin-Ideas-main/kernel/src/kernel_dispatch/kernel_dispatch.c:84-460 | every run of the whole system from power-on is a run of the kernel from its boot state: the steps its actions ask for, in order, with admissions in between |
| `SystemRuns.HappensIff` | tp-2024-2c-Los-Sin-Ideas-main/tp-2024-2c-Los-Sin-Ideas-main/kernel/src/kernel_dispatch/kernel_dispatch.c:84-460 | in every state reached from power-on an action can be taken exactly when the kernel and the next instruction allow it, so memory never misses a context or refuses a new thread |
| `SystemRuns.OnlyInstructionsWrite` | tp-2024-2c-Los-Sin-Ideas-main/tp-2024-2c-Los-Sin-Ideas-main/cpu/src/ciclo_instruccion/instructions/instructions.c:61-82 | the user memory changes only when the running thread executes WRITE_MEM, which changes nothing but the CPU besides |
| `BareMemory.CreateBare` | tp-2024-2c-Los-Sin-Ideas-main/tp-2024-2c-Los-Sin-Ideas-main/memoria/src/mem_structs.c:223-281 | a creation selects the same partition and succeeds on the same requests whatever threads memory holds |
| `BareMemory.SoundPairs` | tp-2024-2c-Los-Sin-Ideas-main/tp-2024-2c-Los-Sin-Ideas-main/memoria/src/mem_structs.c:223-281 | in either scheme partitions in use and processes pair up by PID, each process inside its own, and a partition is free exactly when it bears no PID |
| `MutexProgram.MutualExclusion` | tp-2024-2c-Los-Sin-Ideas-main/tp-2024-2c-Los-Sin-Ideas-main/memoria/scripts/RECURSOS_MUTEX_THREAD:1-12 | in any run from start-up, from the moment the mutex is ready on: for any number of threads, loop count, other processes and preemption a member that is not blocked is between lock and unlock exactly when it owns the mutex, so at most one is; blocked ones stand at the lock |
| `MutexProgram.WordCountsWrites` | tp-2024-2c-Los-Sin-Ideas-main/tp-2024-2c-Los-Sin-Ideas-main/memoria/scripts/RECURSOS_MUTEX_THREAD:7-9 | in every such state the shared word is its first value plus the members' completed WRITE_MEMs, modulo 2^32 |
| `MutexProgram.EveryIncrementCounts` | tp-2024-2c-Los-Sin-Ideas-main/tp-2024-2c-Los-Sin-Ideas-main/memoria/scripts/RECURSOS_MUTEX_THREAD:1-12 | whenever no member is alive the word has gone up by loop count times the members that have exited, modulo 2^32, after exactly (7c + 5) instructions for each; with members alive no run exceeds (7c + 5) for each that exited or can be alive |
| `MutexProgram.NeverStuck` | tp-2024-2c-Los-Sin-Ideas-main/tp-2024-2c-Los-Sin-Ideas-main/kernel/src/mutexes/mutex_thread.c:49-123 | whatever is offered to a member, the scheduler or a device can be done, and when nobody runs and nobody is ready no member is left waiting |
| `MutexProgram.EndingSparesIff` | tp-2024-2c-Los-Sin-Ideas-main/tp-2024-2c-Los-Sin-Ideas-main/kernel/src/mutexes/mutex_thread.c:125-139 | a thread outside the team that ends (THREAD_EXIT, PROCESS_EXIT or a segmentation fault) leaves exclusion intact if and only if the mutex is not held under its TID |
| `MutexBroken.SharedTidsBreakExclusion` | tp-2024-2c-Los-Sin-Ideas-main/tp-2024-2c-Los-Sin-Ideas-main/memoria/scripts/RECURSOS_MUTEX_PROC:1-16 | the two shipped workloads together, with equal priorities and interruptions, whatever the policy: a run from start-up after which threads 1 and 2 of the first are both between lock and unlock and not blocked, because thread 1 of the second has ended |
| `MutexPriorities.ShippedWorkloadsWork` | tp-2024-2c-Los-Sin-Ideas-main/tp-2024-2c-Los-Sin-Ideas-main/memoria/scripts/RECURSOS_MUTEX_PROC:1-16 | both shipped workloads, any numbers of threads and loop counts, in any run from start-up that is decided by priority with the members last (interruptions anywhere) or is uninterrupted (any decisions): no two members are between lock and unlock unblocked, while the parent lives past its MUTEX_CREATE somebody runs or is ready, and past its joins it holds threads times loop count modulo 2^32 with all children exited |
| `MutexPriorities.ShippedRunsBehave` | tp-2024-2c-Los-Sin-Ideas-main/tp-2024-2c-Los-Sin-Ideas-main/kernel/src/scheduler.c:90-112 | every such run is one in which the race workload leaves mutex and word alone, ends included, so the results about polite processes apply to it |
| `MutexRanks.PickedFirst` | tp-2024-2c-Los-Sin-Ideas-main/tp-2024-2c-Los-Sin-Ideas-main/kernel/src/scheduler.c:60-88 | while a thread of another process is alive, a decision by priority gives the CPU to no member |
| `MutexPriorities.MemberHolds` | tp-2024-2c-Los-Sin-Ideas-main/tp-2024-2c-Los-Sin-Ideas-main/memoria/scripts/RECURSOS_MUTEX_THREAD:5-12 | without interruptions a member's turn keeps that only the running member can hold the mutex and nobody waits for it |
| `MutexSites.RacersPolite` | tp-2024-2c-Los-Sin-Ideas-main/tp-2024-2c-Los-Sin-Ideas-main/memoria/scripts/RECURSOS_RACE_PROC:1-13 | unless the mutex is held under its TID, no instruction of the race workload touches the mutex, or the word of the other process, at whatever bases memory placed them |
| `MutexSites.Apart` | tp-2024-2c-Los-Sin-Ideas-main/tp-2024-2c-Los-Sin-Ideas-main/memoria/src/partitions/mem_dynamic_partition.c:10-29 | in either scheme, with every process of more than 14 bytes, the words at offset 14 of two processes never overlap |
| `MutexFrame.LockFrame` | tp-2024-2c-Los-Sin-Ideas-main/tp-2024-2c-Los-Sin-Ideas-main/kernel/src/mutexes/mutex_thread.c:24-139 | no step changes the record of MUTEX except locking, unlocking or creating it, or ending a thread under whose TID it is held |
| `MutexWorkload.ParentReads` | tp-2024-2c-Los-Sin-Ideas-main/tp-2024-2c-Los-Sin-Ideas-main/memoria/scripts/RECURSOS_MUTEX_PROC:1-16 | in any run from start-up in which the other processes leave mutex and word alone, a parent past its joins holds threads times loop count modulo 2^32, all its children have exited and it is its process's only thread |
| `MutexProgress.WorkloadComputes` | tp-2024-2c-Los-Sin-Ideas-main/tp-2024-2c-Los-Sin-Ideas-main/memoria/scripts/RECURSOS_MUTEX_PROC:1-16 | the shipped workload on its own, the process its parent creates not fitting in memory beside it, for any number of threads and any loop count, under any policy without preemption: from start-up the parent gets past its joins and holds threads times loop count modulo 2^32 |
| `MutexProgress.WorkloadFinishes` | tp-2024-2c-Los-Sin-Ideas-main/tp-2024-2c-Los-Sin-Ideas-main/memoria/scripts/RECURSOS_MUTEX_PROC:1-16 | from any state that a run from start-up leaves past the creations, with no other process alive, going on without interruptions leads to the parent holding threads times loop count modulo 2^32 |
| `MutexProgress.WorkloadNeverStuck` | tp-2024-2c-Los-Sin-Ideas-main/tp-2024-2c-Los-Sin-Ideas-main/kernel/src/join_thread.c:22-74 | in any run from start-up in which the other processes leave mutex and word alone, while the parent lives, past its MUTEX_CREATE, somebody runs or is ready |
| `MutexWorkload.WorkloadTells` | tp-2024-2c-Los-Sin-Ideas-main/tp-2024-2c-Los-Sin-Ideas-main/memoria/scripts/RECURSOS_MUTEX_PROC:5-9 | from the parent's MUTEX_CREATE on, such a run is one the exclusion, counting and progress results are about |
| `MutexWorkload.WorkloadStarts` | tp-2024-2c-Los-Sin-Ideas-main/tp-2024-2c-Los-Sin-Ideas-main/memoria/scripts/RECURSOS_MUTEX_PROC:1-5 | for every workload and whatever the other scripts, a run from start-up leads to the parent's MUTEX_CREATE |
| `MutexChildren.JoinedAreGone` | tp-2024-2c-Los-Sin-Ideas-main/tp-2024-2c-Los-Sin-Ideas-main/kernel/src/join_thread.c:22-74 | whenever the parent runs, every child whose join is behind it is gone |
| `MutexChildren.ParentIsLast` | tp-2024-2c-Los-Sin-Ideas-main/tp-2024-2c-Los-Sin-Ideas-main/memoria/scripts/RECURSOS_MUTEX_PROC:10-16 | a running parent past its joins is its process's last thread, and every increment has been made |
| `Admission.LoopAdmitsAPrefix` | tp-2024-2c-Los-Sin-Ideas-main/tp-2024-2c-Los-Sin-Ideas-main/kernel/src/long_term_list.c:83-90 | the loop admits a prefix of NEW in PID order with matching parameters, and stops only when NEW is empty or its head fits nowhere, that attempt changing nothing |
| `Admission.AdmittedAreLoaded` | tp-2024-2c-Los-Sin-Ideas-main/tp-2024-2c-Los-Sin-Ideas-main/kernel/src/long_term_list.c:28-90 | every admitted process has a live first thread in the kernel and a fresh context for it in memory; memory keeps its invariant and knows nobody still in NEW |
| `AdmissionRuns.NewWaitsForRoom` | tp-2024-2c-Los-Sin-Ideas-main/tp-2024-2c-Los-Sin-Ideas-main/kernel/src/long_term_list.c:83-90 | in every run of the whole system from power-on without a segmentation fault, a process waits in NEW only behind one that memory has no place for |
| `AdmissionRuns.FaultStrandsNew` | tp-2024-2c-Los-Sin-Ideas-main/tp-2024-2c-Los-Sin-Ideas-main/kernel/src/kernel_dispatch/kernel_dispatch.c:394-436 | a concrete run of four actions from power-on: a process asks for a second one, which does not fit, and reads past its own end; the second would fit now, stays in NEW, and nothing can happen any more |
| `Admission.LongTerm.TryCreateNewProcess` | tp-2024-2c-Los-Sin-Ideas-main/tp-2024-2c-Los-Sin-Ideas-main/kernel/src/long_term_list.c:28-81 | one attempt on the two modules in place, memory asked first |
| `Admission.LongTerm.TryCreateNewProcesses` | tp-2024-2c-Los-Sin-Ideas-main/tp-2024-2c-Los-Sin-Ideas-main/kernel/src/long_term_list.c:83-90 | the while loop is the repeated attempt |
| `Bitmap.MarkChangesOne` | tp-2024-2c-Los-Sin-Ideas-main/tp-2024-2c-Los-Sin-Ideas-main/filesystem/src/bitmapOperations/bitmapOperations.c:135-146 | setting or clearing a block's bit changes no other block |
| `Bitmap.UsedIsDigit` | tp-2024-2c-Los-Sin-Ideas-main/tp-2024-2c-Los-Sin-Ideas-main/filesystem/src/bitmapOperations/bitmapOperations.c:109-132 | block b is in use exactly when the binary digit b % 8 of byte b / 8 is one, the least significant digit being digit 0 |
| `Bitmap.MarkAddsWeight` | tp-2024-2c-Los-Sin-Ideas-main/tp-2024-2c-Los-Sin-Ideas-main/filesystem/src/bitmapOperations/bitmapOperations.c:135-146 | taking a free block adds 1 << (b % 8) to byte b / 8 and changes no other byte; giving one back subtracts it |
| `Bitmap.FindFree` | tp-2024-2c-Los-Sin-Ideas-main/tp-2024-2c-Los-Sin-Ideas-main/filesystem/src/bitmapOperations/bitmapOperations.c:109-132 | the nested loops return the least free block, or -1 exactly when there is none |
| `Bitmap.CountFreeBlocks` | tp-2024-2c-Los-Sin-Ideas-main/tp-2024-2c-Los-Sin-Ideas-main/filesystem/src/bitmapOperations/bitmapOperations.c:264-281 | the count is the cardinality of the free set |
| `Bitmap.SetBlock` | tp-2024-2c-Los-Sin-Ideas-main/tp-2024-2c-Los-Sin-Ideas-main/filesystem/src/bitmapOperations/bitmapOperations.c:135-146 | one bit changes in place and the free set loses or gains exactly that block |
| `BlockFile.NeededIsCeilingIff` | tp-2024-2c-Los-Sin-Ideas-main/tp-2024-2c-Los-Sin-Ideas-main/filesystem/src/bitmapOperations/bitmapOperations.c:151 | the 32-bit rounding gives the exact number of covering blocks if and only if it does not wrap |
| `BlockFile.NeededIsQuotient` | tp-2024-2c-Los-Sin-Ideas-main/tp-2024-2c-Los-Sin-Ideas-main/filesystem/src/bitmapOperations/bitmapOperations.c:151 | for every 32-bit size the block count is the quotient of the wrapped sum |
| `BlockFile.TakeEffect` | tp-2024-2c-Los-Sin-Ideas-main/tp-2024-2c-Los-Sin-Ideas-main/filesystem/src/bitmapOperations/bitmapOperations.c:204-215 | successive searches take distinct, previously free blocks, the least ones there were, and nothing else |
| `BlockFile.WriteThenRead` | tp-2024-2c-Los-Sin-Ideas-main/tp-2024-2c-Los-Sin-Ideas-main/filesystem/src/bitmapOperations/bitmapOperations.c:217-239 | the data loop's blocks read back in order as the content |
| `BlockFile.WriteElsewhere` | tp-2024-2c-Los-Sin-Ideas-main/tp-2024-2c-Los-Sin-Ideas-main/filesystem/src/bitmapOperations/bitmapOperations.c:217-239 | the data loop leaves every other block alone |
| `BlockFile.WrittenByte` | tp-2024-2c-Los-Sin-Ideas-main/tp-2024-2c-Los-Sin-Ideas-main/filesystem/src/bitmapOperations/bitmapOperations.c:217-239 | every byte of every listed block after the data loop, for any content and block size: the next byte of the content as far as whole words go, and what was there before from then on |
| `FileSystem.AllocationTakes` | tp-2024-2c-Los-Sin-Ideas-main/tp-2024-2c-Los-Sin-Ideas-main/filesystem/src/bitmapOperations/bitmapOperations.c:150-240 | for every 32-bit size an allocation goes through exactly when the free blocks suffice, and takes exactly the blocks it counts and one index block; they cover the data if and only if the count does not wrap |
| `FileSystem.AllocatedReadsBack` | tp-2024-2c-Los-Sin-Ideas-main/tp-2024-2c-Los-Sin-Ideas-main/filesystem/src/bitmapOperations/bitmapOperations.c:204-251 | a new file read through its index block is exactly the bytes given |
| `FileSystem.IndexBytes` | tp-2024-2c-Los-Sin-Ideas-main/tp-2024-2c-Los-Sin-Ideas-main/filesystem/src/bitmapOperations/bitmapOperations.c:243-251 | the index block lists the data blocks in the order they are filled, four bytes each with the least significant first, also where the list runs past the block |
| `FileSystem.LaterAllocationsSpare` | tp-2024-2c-Los-Sin-Ideas-main/tp-2024-2c-Los-Sin-Ideas-main/filesystem/src/bitmapOperations/bitmapOperations.c:150-260 | a later allocation leaves an earlier file readable and unchanged |
| `FileRuns.EveryFileReadsBack` | tp-2024-2c-Los-Sin-Ideas-main/tp-2024-2c-Los-Sin-Ideas-main/filesystem/src/filesOperations/filesOperations.c:16-27 | over any sequence of creations a file is created if and only if it is not empty and the free blocks left by the ones before, counted by arithmetic alone, number its data blocks and one more; each one created reads back as its own bytes at the end |
| `FileRuns.CreatesIff` | tp-2024-2c-Los-Sin-Ideas-main/tp-2024-2c-Los-Sin-Ideas-main/filesystem/src/filesOperations/filesOperations.c:16-27 | a file is created if and only if it is not empty and its data blocks and one more are free; it takes that many, and its index block is the least free one |
| `FileRuns.ReadsBackIff` | tp-2024-2c-Los-Sin-Ideas-main/tp-2024-2c-Los-Sin-Ideas-main/filesystem/src/bitmapOperations/bitmapOperations.c:243-251 | files of a size always read back if and only if no disk can hold one, or the rounding does not wrap, their pointers fit in the index block and the data comes in whole words |
| `FileRuns.OverflowCorrupts` | tp-2024-2c-Los-Sin-Ideas-main/tp-2024-2c-Los-Sin-Ideas-main/filesystem/src/bitmapOperations/bitmapOperations.c:243-245 | on an empty disk, pointers past the index block overwrite the file's own first data block |
| `FileRuns.RaggedCorrupts` | tp-2024-2c-Los-Sin-Ideas-main/tp-2024-2c-Los-Sin-Ideas-main/filesystem/src/bitmapOperations/bitmapOperations.c:202-218 | on an empty disk, data that is not in whole words comes back changed |
| `FileRuns.WrapCorrupts` | tp-2024-2c-Los-Sin-Ideas-main/tp-2024-2c-Los-Sin-Ideas-main/filesystem/src/bitmapOperations/bitmapOperations.c:151 | a size whose rounding wraps is stored in too few blocks and comes back short |
| `BlockDevice.Device.WriteAt` | tp-2024-2c-Los-Sin-Ideas-main/tp-2024-2c-Los-Sin-Ideas-main/filesystem/src/bitmapOperations/bitmapOperations.c:228-229 | the chunk's bytes land at the offset, every other byte is as it was, and the file is as long as that takes |
| `BlockDevice.Device.WriteData` | tp-2024-2c-Los-Sin-Ideas-main/tp-2024-2c-Los-Sin-Ideas-main/filesystem/src/bitmapOperations/bitmapOperations.c:204-240 | the data loop takes and writes the first free blocks, all it needs or all there are |
| `BlockDevice.Device.AssignBlocks` | tp-2024-2c-Los-Sin-Ideas-main/tp-2024-2c-Los-Sin-Ideas-main/filesystem/src/bitmapOperations/bitmapOperations.c:150-260 | the whole allocation in place for every 32-bit size; -1 leaves everything unchanged, except for the one size whose count passes the check by wrapping to zero (2^32 - 1 bytes in one-byte blocks), which uses up every block |
| `BlockDevice.UsesUpEveryBlock` | tp-2024-2c-Los-Sin-Ideas-main/tp-2024-2c-Los-Sin-Ideas-main/filesystem/src/bitmapOperations/bitmapOperations.c:150-215 | that one size leaves no block free and not one byte changed |
| `Dump.CopyIsExactIffAligned` | tp-2024-2c-Los-Sin-Ideas-main/tp-2024-2c-Los-Sin-Ideas-main/memoria/src/mem_structs.c:71-87 | the copy is the process's own bytes, whatever memory holds, if and only if its base is on a word boundary or it is empty |
| `Dump.UnalignedDump` | tp-2024-2c-Los-Sin-Ideas-main/tp-2024-2c-Los-Sin-Ideas-main/memoria/src/mem_structs.c:71-87 | two creations from an empty memory lead to a process on an odd base and a memory whose dump is not that process's bytes |
| `Dump.DumpsAreFaithful` | tp-2024-2c-Los-Sin-Ideas-main/tp-2024-2c-Los-Sin-Ideas-main/memoria/src/mem_structs.c:61-92 | in every state word-sized processes lead to in the dynamic scheme, a dump copies exactly [base, limite) of its process; the file made of it is created if and only if it is not empty and there is room, and gives those bytes back whatever is stored later |
| `Dump.FixedDumpsAreFaithful` | tp-2024-2c-Los-Sin-Ideas-main/tp-2024-2c-Los-Sin-Ideas-main/memoria/src/mem_structs.c:61-92 | the same in the fixed scheme, for partitions and processes of whole words |
| `Dump.DumpCopies` | tp-2024-2c-Los-Sin-Ideas-main/tp-2024-2c-Los-Sin-Ideas-main/memoria/src/mem_structs.c:61-92 | in any orderly memory of either scheme the copy is made if and only if some process has that PID, and is its own bytes if it starts on a word boundary |

## Left out

- KernelMachine.Kernel.Serve: covers PROCESS_EXIT and SEGMENTATION_FAULT when the process has one thread, thread 0, which is running; `TeardownOrder.TeardownKeepsOrderIff` covers every other case, none of which keeps both the invariant and the threads.
- KernelMachine.Kernel.ServeRunning: as `KernelMachine.Kernel.Serve`.
- KernelMachine.Kernel.ProcessExit: requires each wait of the loop to pass at once, because a wait that never passes has no result; `Teardown.LoneProcessHangs` and `TeardownEnds.FinishesIff` are about the exits it leaves out.
- KernelInvariant.ExitProcessKeeps: requires a single thread, thread 0; `TeardownOrder.TeardownKeepsOrderIff` shows that no other exit keeps the invariant and the threads.
- TeardownEnds.FinishesIff: one turn of the loop is atomic, and completions of IO and dumps are what can come between turns. The same loop after a failed dump, which runs beside the dispatcher, is not modelled.
- KernelMachine.Kernel.MutexLock: requires the mutex, when it exists, to belong to the caller's process, because otherwise the code frees a record that stays in the list.
- KernelMachine.Kernel.MutexUnlock: requires the mutex to exist, because the code's error message dereferences it.
- KernelMachine.Kernel.ThreadCancel: stands for calls whose target is found, because the code dereferences it; the target itself stays scheduled, as in the code.
- KernelMachine.Kernel.RequestIo: is one atomic step; `IoRace.CompletionBetweenHalvesIff` says when a completion between its two halves is harmless.
- KernelMachine.Kernel.TryCreateNewProcess: takes memory's answers as parameters; `Admission.LongTerm.TryCreateNewProcess` asks the memory module itself, in the code's order.
- BlockDevice.Device.AssignBlocks: one allocation at a time (search and mark are locked separately in the code).
- WholeSystem.SystemRefinesThreads: each (PID, TID) runs one script; where the code's behaviour is undefined (a reused TID, a foreign mutex, a script run past its end) neither machine goes on.
- MutexProgress.WorkloadComputes: leaves out the process that the parent creates and whose own script decides whether it ever gives the CPU back; `MutexProgress.WorkloadFinishes` takes over from any state in which no other process is alive any more, and `MutexWorkload.ParentReads` holds beside it.
- MutexBroken.SharedTidsBreakExclusion: needs equal priorities and interruptions; with the scripts' own priorities, or uninterrupted, `MutexPriorities.ShippedWorkloadsWork` shows that no such run exists.
- MutexProgress.WorkloadFinishes: asks for no interruptions and no other process alive from then on; under preemption other threads may keep the CPU, and a TID reused while alive ends the modelled run.
- The older join list of thread_operations.c is never filled; long_term_scheduler.c is dead code.
- The `state` field of a TCB, file paths and script names: the lists alone decide where a thread is.
- TCB, mutex and partition records are values inside the lists, so aliasing between a list and another pointer to the same record is not represented.
- The quantum timer and the interrupt flag: preemption may happen between any two instructions and under any policy, where the code's quantum runs under CMN alone; results over all runs cover both.
- PIDs, TIDs, priorities and list lengths are unbounded; registers, addresses, file sizes and the thread count's decrement have their 32-bit behaviour.
- Unknown scheme strings (memory then answers Ok without doing anything) and a negative or malformed partition size.
- Any claim that the MMU isolates processes: it compares a logical address with LIMITE itself.
- Memory's acknowledgement that a thread was deleted is taken as given.
- Accesses past the end of the user memory and fetching past the script are undefined outcomes that no theorem covers.
- bloques.dat is a byte sequence; bitmap.dat persistence, metadata files and their rollback, file names and a block count that is not a multiple of 8 are not modelled.
- Sockets, servers, serialization, configuration, logging, delays and allocation failure: replies of the other programs are direct calls.

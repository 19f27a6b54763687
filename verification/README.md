# DisastrOS: a verified model of the kernel and its semaphores

DisastrOS is a small teaching kernel: a round-robin scheduler with a sorted
timer list, spawn/exit/wait, counting semaphores opened through per-process
descriptors, an intrusive doubly linked list and a fixed-block pool allocator
underneath, and a bounded-buffer program on top. This project models those
parts in Dafny and proves what they do over every input and every run.

A system call or timer tick is one atomic step, as in the source, where traps
and interrupts run with the timer signal masked.

| file | what it holds |
|---|---|
| `KernelState` | the kernel's global state and what each call and tick does to it |
| `Kernel` | the kernel as a class with the source's loops, proved to do exactly that |
| `ProcessInvariants`, `KernelInvariants` | what holds in every reachable state |
| `ProcessProofs`, `FamilyProofs`, `SemaphoreProofs`, `KernelSteps`, `KernelBoot` | every step keeps it, and start-up establishes it |
| `NoStarvation` | exact timer wake-up and the bound on waiting for the processor |
| `ProcessTheorems`, `Reaping`, `ParentField`, `PoolAccounting` | processes: why they wait, who reaps them, when exit fails, where the pool blocks go |
| `SystemCalls`, `SemaphoreCalls` | what the step of each call does, all of it: results, errors, who runs, and every list, pool, table and process |
| `CallTheorems` | when sleepers wake, and what the handlers of the semaphore calls return |
| `WholeRuns` | what exactly the bad steps break, over whole runs from start-up |
| `RecycledParent`, `ReachableFailures`, `TestOneRun` | runs from start-up into the failures listed below |
| `CountingSemaphore`, `SemaphoreTheorems`, `DescriptorTheorems` | semaphores: FIFO refinement, agreement of descriptors, freeing, opening and closing |
| `BoundedBuffer`, `BoundedBufferProof`, `BoundedBufferLiveness`, `BoundedBufferItems` | the producers and consumers as concurrent step programs: safety, termination and what is in the buffer |
| `BoundedBufferDeadlock`, `BoundedBufferStuck`, `BoundedBufferDropouts` | exactly when all the work gets done, how it comes to a deadlock otherwise, and exactly when it can |
| `OtherProcesses`, `BufferOnKernel`, `TestOneLoops` | the same workers as processes of the kernel: every kernel run is a run of their programs |
| `Lists`, `LinkedList`, `PoolAllocator` | the data structures: list operations on sequences, the heap list, the allocator |

A process is named by the block of the PCB pool it occupies. Blocks are recycled
in the pool's own last-in first-out order and a freed block keeps its contents,
so a stale `parent` pointer means in the model what it means in the source. Two
history fields, `exits` and `delivered`, record the exit values given and the
completed waits; no handler reads them.

`Inv` is the conjunction of all invariants: every block of the PCB pool is in
exactly one place and its status says which; every waiting process has one
reason to wait; the timer list is sorted and has one entry for each sleeping
process and none for others; semaphore queues list exactly the blocked
descriptors; descriptors, semaphores and free blocks agree; every process but
init is in exactly one children list; process ids are not reused; nobody is
blocked in a wait that one of its own zombies answers. A state outside `Active`
mode has halted and no longer changes.

## Where the code does something else than its comments promise

Each is proved, with the exact condition and with a run from start-up in which
it happens.

- A `semWait` that blocks writes its result into the process that runs next, and
  its caller reads whatever its return-value field held before
  (`BlockedWaitMisreports`, `ReturnWritten`). The workers of the bounded buffer
  take any value but 0 for an error and exit, holding a token. Before its loop a
  worker's field holds the number its last `semOpen` returned, so the program's
  tests can lose tokens and end in a deadlock: `TestOneDeadlocks` is a run of
  the first test into the no-process-can-run branch, `ExposedConsumerDeadlocks`
  says it for any workers. All work gets done in every schedule exactly if the
  iteration counts fit the buffer and no worker with work enters its loop
  exposed: with a value other than 0, and as a consumer, or as a producer that
  the others can leave without a free place (`DeadlockFreeExactly`). If the
  counts fit, zeroing the fields before the loops is enough. Somebody can end up
  blocked with nobody able to move exactly if workers can be chosen that can all
  be made to give up and whose tokens the rest lacks (`DeadlockedExactly`). With
  prepared workers the kernel itself never takes the no-process-can-run branch,
  whatever the timer does and other processes, which use no semaphores, do
  (`PreparedKernelRuns`).
- `exit` does not update the parent field of the children it hands to init
  (`disastrOS_exit.c:20-33`). Once the parent's block is recycled, an orphan's
  exit can take a stranger for its waiting parent and dereference a null
  pointer: `ExitFaultsExactly`, with a run that gets there in ten calls
  (`MisdirectedExitIsReachable`). It cannot happen as long as no process exits
  before its children (`OrphanFreeRuns`, `NeverMisdirected`).
- For the same reason a death wakes the process waiting for it exactly if that
  is the one the parent field names; init is not told of the death of a process
  it adopted (`DeathWakesExactly`, `UnannouncedDeathIsReachable`).
- `wait(pid)` for a process that is not a child is no error but settles on the
  last child (`NoSuchChild`, `NoSuchChildIsReachable`), against the comment in
  `disastrOS_wait.c:33-34`.
- `exit` does not close semaphores; descriptors and semaphores agree exactly as
  long as processes close theirs first (`AgreementExactly`, `AgreementRuns`,
  `DanglingIsReachable`).
- A semaphore can be created with a negative value, and then its queue is not
  the deficit of its counter (`CountsExactly`, `CountsRuns`,
  `AccountingExactly`, `NegativeIsReachable`).
- A hand-over from exit to a waiting parent loses the pointer block that linked
  the two (`PoolsAfter`, `SpawnFaultsExactly`), so a kernel of any size can be
  brought to where init is alone and cannot spawn (`SpawnGivesOut`). The error
  return of spawn is never reached, because `PCB_alloc` writes through the null
  pointer first.
- An open that fails after creating its semaphore leaves it behind; the next
  open and close of it then does change the lists (`CloseUndoesOpen`,
  `AbandonedIsReachable`).

## Model

| member | source | states |
|---|---|---|
| Lists.DetachElements | disastrOS_semaphores/linked_list.c:56-79 | A detach takes away one occurrence of the item and nothing else |
| Lists.InsertElements | disastrOS_semaphores/linked_list.c:21-54 | An insertion adds one occurrence of the item and nothing else |
| Lists.InsertAfterSplits | disastrOS_semaphores/linked_list.c:39-53 | The item lands right behind the given one and all others keep their order |
| Lists.DetachUndoesInsert | disastrOS_semaphores/linked_list.c:21-79 | Detaching an item just inserted gives back the list there was |
| LinkedList.ListHead.constructor | disastrOS_semaphores/linked_list.c:4-8 | An initialised head is a valid empty list |
| LinkedList.ListHead.Find | disastrOS_semaphores/linked_list.c:10-19 | Returns the item if it is listed and null if not |
| LinkedList.ListHead.Insert | disastrOS_semaphores/linked_list.c:21-54 | Refuses, changing nothing, an item that has a neighbour; otherwise both chains, the ends and the size are those of the sequence with the item inserted after the given one |
| LinkedList.ListHead.DetachItem | disastrOS_semaphores/linked_list.c:56-79 | Both chains, the ends and the size are those of the sequence without the item, whose links are cleared |
| LinkedList.MoveToEnd | disastrOS_semaphores/disastrOS_sempost.c:33-34 | Moving an item between two lists changes these two as sequences and leaves every other list on the heap valid and equal |
| LinkedList.LinkedWith | disastrOS_semaphores/linked_list.c:39-47 | The links of a list pass through a node exactly if the list with the node in that place is linked up |
| PoolAllocator.ChainUnique | disastrOS_semaphores/pool_allocator.c:39-45 | The links from the first index determine the free chain: no cycle, no other reading |
| PoolAllocator.FreeAndHeld | disastrOS_semaphores/pool_allocator.c:49-91 | Free and held blocks together are all the blocks |
| PoolAllocator.BlocksApart | disastrOS_semaphores/pool_allocator.c:33-37 | Every block lies inside the pool, before the links kept behind the blocks; different blocks start at different addresses and do not overlap |
| PoolAllocator.VerdictExactly | disastrOS_semaphores/pool_allocator.c:67-91 | For every address, with C's division: success exactly on those of held blocks, a double free exactly on those of free ones, unaligned exactly off the grid of blocks and out of range exactly on the rest of that grid |
| PoolAllocator.QuotientExact | disastrOS_semaphores/pool_allocator.c:70-76 | Truncating division recovers the index from the offset, also for negative offsets |
| PoolAllocator.PoolAllocator.Init | disastrOS_semaphores/pool_allocator.c:19-47 | Fails, changing nothing, exactly when memory is short; otherwise all blocks are free in address order and blocks and links fit the memory |
| PoolAllocator.PoolAllocator.GetBlock | disastrOS_semaphores/pool_allocator.c:49-65 | Fails exactly when all blocks are held; otherwise gives the address of the first free block, which was not held |
| PoolAllocator.PoolAllocator.ReleaseBlock | disastrOS_semaphores/pool_allocator.c:67-91 | The error is the one for where the address points, and then nothing changes; on success the block is the next to be given out; free plus held stays the pool |
| ProcessProofs.InsertTimerSplits | disastrOS_semaphores/disastrOS_timer.c:44-61 | A new timer goes behind all that are not later and before all that are |
| ProcessProofs.InsertTimerSorted | disastrOS_semaphores/disastrOS_timer.c:44-61 | The timer list stays sorted |
| ProcessProofs.NothingDropped | disastrOS_semaphores/disastrOS_exit.c:60-72 | The loop that releases a dying process's timers finds none |
| Kernel.Kernel.constructor | disastrOS_semaphores/disastrOS.c:142-240 | Start-up leaves init running in the first block and everything else empty or free |
| Kernel.Kernel.WakeTimers | disastrOS_semaphores/disastrOS_schedule.c:17-29 | The loop wakes what the state machine says; each process it detaches is on the waiting list |
| Kernel.Kernel.RotateReady | disastrOS_semaphores/disastrOS_schedule.c:31-37 | The running process goes last and the first ready one runs |
| Kernel.Kernel.Schedule | disastrOS_semaphores/disastrOS_schedule.c:8-43 | Scheduling is the wake-up loop and then the rotation, and keeps all invariants |
| Kernel.Kernel.Tick | disastrOS_semaphores/disastrOS.c:51-60 | A timer interrupt is the machine's tick |
| Kernel.Kernel.ScanTimers | disastrOS_semaphores/disastrOS_timer.c:46-55 | The scan stops where the new timer belongs |
| Kernel.Kernel.AddTimer | disastrOS_semaphores/disastrOS_timer.c:44-61 | The scan puts the timer in its sorted place, or reports that no timer block is free |
| Kernel.Kernel.Sleep | disastrOS_semaphores/disastrOS_sleep.c:7-33 | Sleep does what the state machine says, including the halt when nobody is ready |
| Kernel.Kernel.Spawn | disastrOS_semaphores/disastrOS_spawn.c:11-33 | Spawn does what the state machine says |
| Kernel.Kernel.AllocPcb | disastrOS_semaphores/disastrOS_pcb.c:42-60 | The first free block gets the next pid and cleared fields; its recorded call is left as found |
| Kernel.Kernel.ScanChildren | disastrOS_semaphores/disastrOS_wait.c:16-31 | The scan settles on the child the state machine names |
| Kernel.Kernel.Wait | disastrOS_semaphores/disastrOS_wait.c:7-66 | Wait does what the state machine says; the child it reaps is on the zombie list |
| Kernel.Kernel.AdoptChildren | disastrOS_semaphores/disastrOS_exit.c:20-33 | The loop ends, empties the list of children and appends it, in order, to init's |
| Kernel.Kernel.ByPid | disastrOS_semaphores/disastrOS_pcb.c:89-98 | The lookup finds the first child with the pid |
| Kernel.Kernel.ReleaseTimers | disastrOS_semaphores/disastrOS_exit.c:63-72 | Exactly the process's timers are taken out and freed |
| Kernel.Kernel.HandOver | disastrOS_semaphores/disastrOS_exit.c:46-87 | The branch for a waiting parent does what the state machine says, including the null dereference |
| Kernel.Kernel.Exit | disastrOS_semaphores/disastrOS_exit.c:15-95 | Exit does what the state machine says; the parent it wakes is on the waiting list and the parent field is in the pool |
| Kernel.Kernel.DescByFd | disastrOS_semaphores/disastrOS_semdescriptor.c:53-62 | The lookup finds the caller's first descriptor with the number |
| Kernel.Kernel.MySearch | disastrOS_semaphores/disastrOS_semdescriptor.c:92-100 | The lookup finds the caller's first descriptor of the semaphore with the id |
| Kernel.Kernel.SemaphoreById | disastrOS_semaphores/disastrOS_semaphore.c:41-50 | The lookup finds the first semaphore with the id |
| Kernel.Kernel.AllocSemaphore | disastrOS_semaphores/disastrOS_semaphore.c:24-33 | The block gets id and counter and no descriptors; its waiting list is left as found |
| Kernel.Kernel.SemOpen | disastrOS_semaphores/disastrOS_semopen.c:11-81 | Open does what the state machine says, in all its failing branches too |
| Kernel.Kernel.SemClose | disastrOS_semaphores/disastrOS_semclose.c:12-67 | Close does what the state machine says; what it detaches is on the lists |
| Kernel.Kernel.SemWait | disastrOS_semaphores/disastrOS_semwait.c:12-48 | SemWait does what the state machine says, including the deadlock halt |
| Kernel.Kernel.SemPost | disastrOS_semaphores/disastrOS_sempost.c:12-46 | SemPost does what the state machine says; the process it releases is on the waiting list |
| Kernel.Kernel.Trap | disastrOS_semaphores/disastrOS.c:88-140 | Recording and dispatching a call is the machine's step and keeps all invariants until the system halts |
| ProcessInvariants.Exclusive | disastrOS_semaphores/disastrOS.c:18-24 | A process is in one place only: running, ready, waiting, zombie or free |
| ProcessInvariants.WaitingIffListed | disastrOS_semaphores/disastrOS_pcb.h:7-14 | A status is Waiting exactly while the process is on the waiting list |
| ProcessInvariants.HandOverConserves | disastrOS_semaphores/disastrOS_exit.c:46-87 | A hand-over creates and loses no process block |
| ProcessInvariants.StartFirstConserves | disastrOS_semaphores/disastrOS_exit.c:88-94 | Becoming a zombie creates and loses no process block |
| KernelSteps.ScheduleKeeps | disastrOS_semaphores/disastrOS_schedule.c:8-43 | Scheduling keeps every invariant |
| KernelSteps.SleepKeeps | disastrOS_semaphores/disastrOS_sleep.c:15-27 | Sleep keeps every invariant |
| KernelSteps.SpawnKeeps | disastrOS_semaphores/disastrOS_spawn.c:11-33 | Spawn keeps every invariant |
| KernelSteps.ExitKeeps | disastrOS_semaphores/disastrOS_exit.c:15-95 | Exit keeps every invariant unless it halts |
| KernelSteps.WaitKeeps | disastrOS_semaphores/disastrOS_wait.c:7-66 | Wait keeps every invariant, no lost wake-up included |
| KernelSteps.SemOpenKeeps | disastrOS_semaphores/disastrOS_semopen.c:11-81 | Open keeps every invariant, also when a pool is exhausted |
| KernelSteps.SemCloseKeeps | disastrOS_semaphores/disastrOS_semclose.c:12-67 | Close keeps every invariant |
| KernelSteps.SemWaitKeeps | disastrOS_semaphores/disastrOS_semwait.c:12-48 | SemWait keeps every invariant |
| KernelSteps.SemPostKeeps | disastrOS_semaphores/disastrOS_sempost.c:12-46 | SemPost keeps every invariant |
| KernelSteps.StepKeeps | disastrOS_semaphores/disastrOS.c:105-140 | Every call and every tick keeps every invariant until the system halts |
| KernelSteps.RunKeeps | disastrOS_semaphores/disastrOS.c:51-140 | So does every run |
| KernelBoot.Reachable | disastrOS_semaphores/disastrOS.c:142-263 | Every state reachable from start-up, with any pool sizes, satisfies every invariant until the system halts |
| FamilyProofs.HandOverFinds | disastrOS_semaphores/disastrOS_exit.c:51-52 | The dying process is found among the children exactly if it is there |
| FamilyProofs.BlockWakeups | disastrOS_semaphores/disastrOS_wait.c:23-65 | Blocking in wait leaves no zombie behind that the call was after |
| FamilyProofs.DieKids | disastrOS_semaphores/disastrOS_exit.c:20-33 | Re-parenting leaves every process once in one list: its parent's or init's |
| ParentField.StepParents | disastrOS_semaphores/disastrOS_exit.c:37-44 | Parent fields always point into the pool, those of orphans too |
| NoStarvation.ElapsedExactly | disastrOS_semaphores/disastrOS_timer.c:63-70 | The timers that have elapsed are exactly the first ones of the sorted list |
| NoStarvation.ScheduleExact | disastrOS_semaphores/disastrOS_schedule.c:17-37 | One scheduling wakes exactly the elapsed timers' processes, puts them in timer order before the ready ones, runs the first of all and puts the running one last |
| NoStarvation.StepNearer | disastrOS_semaphores/disastrOS_schedule.c:21-37 | No step moves a ready process back, and each scheduler turn brings it one nearer |
| NoStarvation.RunsWithinPotential | disastrOS_semaphores/disastrOS_schedule.c:21-37 | A ready process runs within its index plus the number of timers, in scheduler turns |
| NoStarvation.TimersAreFew | disastrOS_semaphores/disastrOS_sleep.c:18-25 | There are no more timers than waiting processes |
| NoStarvation.NoStarvation | disastrOS_semaphores/disastrOS_schedule.c:8-43 | A ready process runs within n - 1 scheduler turns, n the number of live processes, whatever calls are made in between |
| ProcessTheorems.UniqueReason | disastrOS_semaphores/disastrOS_schedule.c:21-29 | A waiting process has exactly one timer, or one place in one semaphore queue, or waits for a child, as its last call says |
| ProcessTheorems.WakersFindSleepers | disastrOS_semaphores/disastrOS_sempost.c:27-34 | Whatever a timer or queue refers to is on the waiting list |
| ProcessTheorems.ExactlyOneHolder | disastrOS_semaphores/disastrOS_exit.c:20-33 | Every process but init is in exactly one list of children |
| SystemCalls.ExitFaultsExactly | disastrOS_semaphores/disastrOS_exit.c:37-93 | Exit comes back exactly unless init exits, an orphan's recycled parent block looks as if it waited for it, or nobody is ready and no parent waits; in the last two cases, and if init has no children, a null pointer is dereferenced, and init with children loops for ever first |
| SystemCalls.OrphanUnannounced | disastrOS_semaphores/disastrOS_exit.c:39-45 | init blocked in a wait stays blocked when a process it adopted dies |
| SystemCalls.DeathWakesExactly | disastrOS_semaphores/disastrOS_exit.c:37-58 | The death of a child wakes the process that waits for it and holds it exactly if the parent field names that process, which it does for all but init's adopted children |
| RecycledParent.UnannouncedDeathIsReachable | disastrOS_semaphores/disastrOS_exit.c:39-58 | A run of seven calls after which init, waiting for any child, holds a zombie and is still blocked |
| SystemCalls.ExitReports | disastrOS_semaphores/disastrOS_exit.c:12-93 | The step of `exit(value)`: it faults exactly if init exits, if the parent by name waits for the process but does not hold it, or if nobody waits and no process is ready; otherwise `value` is the process's exit value, and either the waiting parent runs with the pid, and the value exactly if it asked for one, and the block is free, or the process is a zombie keeping it and the first ready process runs; every list, pool and process is accounted for |
| SystemCalls.NoSuchChild | disastrOS_semaphores/disastrOS_wait.c:22-41 | Waiting for a process that is no child settles on the last child |
| ReachableFailures.NoSuchChildIsReachable | disastrOS_semaphores/disastrOS_wait.c:33-65 | In a kernel of any size init can block waiting for a pid that none of its children has |
| ProcessTheorems.LogGrows | disastrOS_semaphores/disastrOS_wait.c:44-55 | A step completes at most one wait and changes no exit value already given |
| ProcessTheorems.ReapedOnce | disastrOS_semaphores/disastrOS_wait.c:44-55 | Over any run no pid is delivered twice, and a value delivered is the one that process exited with |
| Reaping.StepDelivers | disastrOS_semaphores/disastrOS_exit.c:37-58 | Every step completes no wait, or one, with a child of the process that waited, which runs with that child's pid as result, and with its exit value exactly if its call asked for one, while the child's block is free |
| Reaping.DeliveredToHolder | disastrOS_semaphores/disastrOS_wait.c:44-55 | Over any run every completed wait was made at one step of it, for the process that then held the child |
| Reaping.ExactlyOnceReaping | disastrOS_semaphores/disastrOS_wait.c:44-55 | From start-up, each pid is delivered at most once, to the holder of the child, with the value it exited with exactly if the holder's wait asks for one |
| ProcessTheorems.OrphanFreeExits | disastrOS_semaphores/disastrOS_exit.c:39-52 | Without orphans no exit is misdirected |
| ProcessTheorems.OrphansExactly | disastrOS_semaphores/disastrOS_exit.c:20-33 | Orphans appear exactly when a process with children exits |
| WholeRuns.ThroughoutExactly | disastrOS_semaphores/disastrOS.c:105-140 | A property that steps keep exactly if they are not bad holds throughout a run exactly if none of its steps is |
| WholeRuns.OrphanFreeRuns | disastrOS_semaphores/disastrOS_exit.c:20-33 | From start-up, a run is free of orphans throughout exactly if nobody in it exits before its children |
| WholeRuns.NeverMisdirected | disastrOS_semaphores/disastrOS_exit.c:39-52 | In a run in which nobody exits before its children no exit is misdirected |
| WholeRuns.AgreementRuns | disastrOS_semaphores/disastrOS_semclose.c:32-52 | From start-up, processes and semaphores agree on who has what open throughout a run exactly if nobody in it exits with a descriptor |
| WholeRuns.CountsRuns | disastrOS_semaphores/disastrOS_semopen.c:33-43 | From start-up, every queue is the deficit of its counter throughout a run exactly if no semaphore is created with a negative value |
| WholeRuns.ParentsAlways | disastrOS_semaphores/disastrOS_exit.c:37-44 | In every state of every run from start-up parent fields point into the pool |
| RecycledParent.MisdirectedExitIsReachable | disastrOS_semaphores/disastrOS_exit.c:40-52 | A run of ten calls from start-up reaches the null dereference of a misdirected exit |
| PoolAccounting.StepBlocks | disastrOS_semaphores/disastrOS_exit.c:50-86 | No step creates or loses process, timer or pointer blocks, except that a hand-over loses one pointer block |
| PoolAccounting.Population | disastrOS_semaphores/disastrOS_spawn.c:13-30 | Only fork and spawn add a process and only a completed wait removes one |
| PoolAccounting.PoolsAfter | disastrOS_semaphores/disastrOS_pcb.c:42-76 | How many blocks of each pool are free after any run from start-up |
| PoolAccounting.SpawnFaultsExactly | disastrOS_semaphores/disastrOS_pcb.c:42-72 | Fork and spawn dereference null exactly when processes, or processes plus past hand-overs, use up the pool |
| ReachableFailures.SpawnGivesOut | disastrOS_semaphores/disastrOS_exit.c:51-52 | In a kernel of any size, spawning, waiting and exiting once for each block leaves init alone and the next spawn dereferencing null |
| PoolAccounting.TimersSuffice | disastrOS_semaphores/disastrOS_sleep.c:18-23 | A sleep is never refused for want of a timer block |
| FamilyProofs.DieRelations | disastrOS_semaphores/disastrOS_exit.c:17-36 | Dying appends the children, in order, to init's list, stores the exit value and changes nobody's parent, pid or call |
| CallTheorems.ScheduleWakes | disastrOS_semaphores/disastrOS_schedule.c:21-29 | Scheduling takes the processes that are due off the waiting list, and no others |
| CallTheorems.SleepsExactly | disastrOS_semaphores/disastrOS_schedule.c:21-29 | Over any step a sleeper sleeps on, exactly unless the step schedules at or after its time |
| CallTheorems.SleepsUntilDue | disastrOS_semaphores/disastrOS_sleep.c:15-25 | Over any run a sleeper is asleep in every state before its time |
| CallTheorems.WakesWhenDue | disastrOS_semaphores/disastrOS_schedule.c:21-29 | A run that reaches the sleeper's time has it awake when the clock shows that time |
| WholeRuns.SleepPromise | disastrOS_semaphores/disastrOS_sleep.c:7-33 | From start-up a call of sleep is never refused: its caller waits in every state before its time, whatever the others do, and is off the waiting list when exactly that many ticks have passed |
| SystemCalls.SpawnReports | disastrOS_semaphores/disastrOS_spawn.c:11-33 | The result of fork and of spawn is the pid, never used before, of the one process that is new after the step, last in the ready queue and among the caller's children |
| SystemCalls.ForkOrSpawn | disastrOS_semaphores/disastrOS_fork.c:7-30 | The step of fork or spawn faults exactly when a pool is used up; otherwise it adds one process in the first free block, reset as the allocation does, and changes nothing else |
| SystemCalls.WaitReports | disastrOS_semaphores/disastrOS_wait.c:8-66 | The step of `wait(pid, result)`: EWAIT exactly without children; otherwise it settles on the first child it is after, by that pid, or on the last; a zombie's pid is returned, its exit value delivered exactly if `result` is not null, its blocks freed; otherwise the caller blocks and the first ready process runs; nothing else changes |
| SystemCalls.SleepReports | disastrOS_semaphores/disastrOS_sleep.c:7-33 | The step of sleep: refused only without a timer block, otherwise a timer in its place, the caller blocked, and the first ready process running or all asleep |
| SystemCalls.Reschedule | disastrOS_semaphores/disastrOS_schedule.c:21-37 | The step of a tick or preempt: exactly the elapsed timers go, their processes in that order go in front of the ready ones, the first of all these runs and the running one goes last |
| SystemCalls.UnknownCall | disastrOS_semaphores/disastrOS.c:118-122 | A call without handler returns ENOTIMPLEMENTED and changes nothing |
| SystemCalls.WaitBlocks | disastrOS_semaphores/disastrOS_wait.c:58-65 | A wait for any child blocks when none is a zombie |
| SemaphoreCalls.SemWaitOutcome | disastrOS_semaphores/disastrOS_semwait.c:12-48 | The step of semWait: ENOTMYSEM, and nothing else changed, exactly if the number is not open; otherwise a positive counter lets the caller run on with 0, and one that is not has it queued last and blocked, the 0 going to the process that runs then, or is a deadlock if none can |
| SemaphoreCalls.SemPostOutcome | disastrOS_semaphores/disastrOS_sempost.c:12-44 | The step of semPost: ENOTMYSEM, and nothing else changed, exactly if the number is not open; otherwise the counter rises, the first waiting process, if the counter was negative, becomes the last ready one, and the caller runs on with 0 |
| SemaphoreCalls.OpenReports | disastrOS_semaphores/disastrOS_semopen.c:11-80 | The step of semOpen in all its branches: the old number, or a descriptor under the next number of the semaphore listed or created with the value given, or an error with what the failing branch keeps |
| SemaphoreCalls.OpenErrors | disastrOS_semaphores/disastrOS_semopen.c:20-79 | Each error of open is returned exactly when its pool has run out, and a number exactly otherwise |
| SemaphoreCalls.OpenConnects | disastrOS_semaphores/disastrOS_semopen.c:20-79 | The number a successful open returns acts on the listed semaphore with the id asked for |
| SemaphoreCalls.CloseReports | disastrOS_semaphores/disastrOS_semclose.c:12-67 | The step of semClose: ENOTMYSEM, and nothing else changed, exactly if the number is not open; otherwise descriptor, two pointer blocks and an emptied semaphore are freed; the number is not open then and the caller's others stand for what they did |
| CountingSemaphore.Fifo | disastrOS_semaphores/disastrOS_sempost.c:24-42 | Released then queued processes are the blocked ones, in the order they blocked; the counter is the initial value plus posts minus waits |
| CountingSemaphore.Accounting | disastrOS_semaphores/disastrOS_semwait.c:31-44 | From a non-negative start the queue is the deficit and no more waits complete than there are tokens |
| CountingSemaphore.AccountingExactly | disastrOS_semaphores/disastrOS_semopen.c:15-35 | A non-negative start is exactly what guarantees that |
| SemaphoreTheorems.StepRefines | disastrOS_semaphores/disastrOS_semwait.c:25-44 | Every kernel step acts on every open semaphore as the abstract wait, the abstract post, or not at all |
| SemaphoreTheorems.RunRefines | disastrOS_semaphores/disastrOS_sempost.c:22-44 | So does every run, operation by operation |
| SemaphoreTheorems.FifoCountingSemaphore | disastrOS_semaphores/disastrOS_sempost.c:24-42 | Over any run while it is open, a semaphore created with v >= 0 is a FIFO counting semaphore with exact token accounting |
| SemaphoreTheorems.CreatedEmpty | disastrOS_semaphores/disastrOS_semaphore.c:24-33 | A new semaphore has nobody waiting, also in a recycled block whose waiting list is not initialised |
| SemaphoreTheorems.CountsExactly | disastrOS_semaphores/disastrOS_semopen.c:33-43 | Every step keeps each queue the deficit of its counter, exactly except creating a semaphore with a negative value |
| ReachableFailures.NegativeIsReachable | disastrOS_semaphores/disastrOS_semopen.c:33-43 | The first call of a kernel of any size can break that law |
| SemaphoreTheorems.NewInList | disastrOS_semaphores/disastrOS_semopen.c:30-43 | The only semaphore a step adds is the one it creates |
| SemaphoreProofs.NamedDescriptor | disastrOS_semaphores/disastrOS_semdescriptor.c:53-62 | The descriptor found by number is the caller's own and not queued |
| SemaphoreProofs.FreshSem | disastrOS_semaphores/disastrOS_semaphore.c:24-33 | The block handed out is unlisted and nobody waits on it |
| DescriptorTheorems.AgreementExactly | disastrOS_semaphores/disastrOS_semclose.c:32-52 | Processes and semaphores agree on who has what open over every step, exactly except the exit of a process with descriptors open |
| ReachableFailures.DanglingIsReachable | disastrOS_semaphores/disastrOS_exit.c:35-58 | Four calls in a kernel of any size leave a semaphore listing a descriptor of nobody |
| DescriptorTheorems.FreedExactly | disastrOS_semaphores/disastrOS_semclose.c:54-63 | A semaphore is unlinked and freed exactly when its last descriptor closes, and nobody waits on it then |
| SemaphoreCalls.ReopenExactly | disastrOS_semaphores/disastrOS_semopen.c:19-70 | Opening again returns the same result and changes nothing, exactly unless pointer blocks ran out |
| SemaphoreCalls.FirstOpenReturnsZero | disastrOS_semaphores/disastrOS_pcb.c:42-62 | Whatever happens in between, the first open of a process forked or spawned, also in a recycled block, returns 0 if it succeeds |
| SemaphoreCalls.CloseUndoesOpen | disastrOS_semaphores/disastrOS_semclose.c:32-65 | A new descriptor opened and closed restores all lists and pools, the order of free blocks included, exactly unless the semaphore had been left without descriptors; only the next descriptor number has moved on |
| ReachableFailures.AbandonedIsReachable | disastrOS_semaphores/disastrOS_semopen.c:47-70 | Three calls leave a semaphore that an open and a close do not leave as it was |
| DescriptorTheorems.BlockedWaitMisreports | disastrOS_semaphores/disastrOS_semwait.c:31-47 | A blocking wait's 0 goes to the next process and its caller keeps an old value |
| DescriptorTheorems.ReturnWritten | disastrOS_semaphores/disastrOS_semwait.c:46 | A step writes no return value but that of the process that runs after it, and into another process's only as a semWait or an exit that switches to it |
| TestOneRun.ConsumerReadsOne | disastrOS_semaphores/disastrOS_OurTest.c:200-202 | In a run of the first test the consumer, released by the producer's post, comes back from a correct semWait with 1 |
| TestOneRun.TestOneDeadlocks | disastrOS_semaphores/disastrOS_OurTest.c:342-348 | That run goes on into the deadlock branch of semWait |
| BoundedBufferLiveness.InitialInv | disastrOS_semaphores/disastrOS_OurTest.c:318-339 | The start satisfies the buffer's invariants, for any number of workers each side, all using the mutex, or a single one, whatever their return-value fields hold |
| BoundedBufferProof.StepKeepsInv | disastrOS_semaphores/disastrOS_OurTest.c:62-83 | Every single read, write, test or semaphore call of any worker keeps them, also a test that makes it give up: token balance, window of full cells, indices, mutual exclusion |
| BoundedBufferLiveness.RunKeepsInv | disastrOS_semaphores/disastrOS_OurTest.c:115-134 | So does every schedule, whichever processes the kernel switches to |
| BoundedBufferProof.BusyAtMostOne | disastrOS_semaphores/disastrOS_OurTest.c:65-79 | At most one worker a side is between its mutex calls |
| BoundedBufferProof.Alone | disastrOS_semaphores/disastrOS_OurTest.c:162-177 | A worker touching the buffer is alone on its side, also without a mutex when it is the only one |
| BoundedBufferProof.WritesZeroCell | disastrOS_semaphores/disastrOS_OurTest.c:71-72 | A producer only writes a zero cell, the next of the circular window |
| BoundedBufferItems.ProducerPuts | disastrOS_semaphores/disastrOS_OurTest.c:70-72 | A producer's write puts its pid into the next cell of the window, which was zero, and changes no other |
| BoundedBufferItems.ConsumerTakes | disastrOS_semaphores/disastrOS_OurTest.c:121-123 | A consumer's write zeroes the cell of the oldest item and no other |
| BoundedBufferItems.ItemsArePids | disastrOS_semaphores/disastrOS_OurTest.c:62-83 | In every schedule each pid has been written exactly as often as its producers have got to their cell; everything written, and every cell that is not zero, is a producer's pid; at the end every producer has written its pid once a round |
| BoundedBufferProof.ClearsOldestItem | disastrOS_semaphores/disastrOS_OurTest.c:122-123 | A consumer only clears a non-zero cell, that of the oldest item |
| BoundedBufferProof.DepthBounds | disastrOS_semaphores/disastrOS_OurTest.c:62-134 | Items written and not cleared are never negative in number nor more than the buffer holds |
| BoundedBufferDeadlock.DeadlockFree | disastrOS_semaphores/disastrOS_OurTest.c:350-384 | While nobody has given up and the counts fit, not every unfinished worker is blocked |
| BoundedBufferDeadlock.PreparedRuns | disastrOS_semaphores/disastrOS_OurTest.c:63-66 | From a prepared start no schedule makes a worker give up or leaves all the unfinished ones blocked |
| BoundedBufferDeadlock.NeverLastToBlock | disastrOS_semaphores/disastrOS_semwait.c:36-41 | In the runs of prepared workers, one that blocks leaves another able to run, so semWait's deadlock branch is not reached |
| BoundedBufferDeadlock.DeadlockFreeExactly | disastrOS_semaphores/disastrOS_OurTest.c:342-384 | No schedule comes to where work is undone and nobody can do it if and only if the consumers' iterations are at most the producers' and these at most buffer length more, and no worker is exposed; and a failing schedule needs no other process |
| BoundedBufferStuck.ExposedConsumerDeadlocks | disastrOS_semaphores/disastrOS_OurTest.c:115-119 | With an exposed consumer without whose rounds the work does not fit, some schedule of the workers alone leaves one blocked and nobody able to move |
| BoundedBufferDropouts.DeadlockedExactly | disastrOS_semaphores/disastrOS_OurTest.c:115-119 | Some schedule leaves somebody blocked and nobody able to move if and only if workers can be chosen, each with work and a value other than 0, producers only if the other producers can fill the buffer, such that without their rounds but with a token gone to each one side asks for more than the other supplies, or they take all places while the other consumers have more rounds than there are producers among them |
| BoundedBufferDropouts.DeadlockIsFatal | disastrOS_semaphores/disastrOS_semwait.c:36-41 | In a deadlock of any run those that have given up are such a choice |
| BoundedBufferStuck.SteadyDeadlocks | disastrOS_semaphores/disastrOS_semwait.c:31-47 | Once exactly the chosen workers are misled, the workers alone can run into a deadlock |
| BoundedBufferLiveness.StaysMisled | disastrOS_semaphores/disastrOS_semwait.c:46 | A worker that has blocked with a value other than 0 keeps it, unless another one that blocks switches to it |
| BoundedBufferLiveness.StepProgress | disastrOS_semaphores/disastrOS_OurTest.c:62-134 | Every step brings the end one step nearer, so every schedule ends |
| BoundedBufferLiveness.RunToRest | disastrOS_semaphores/disastrOS_OurTest.c:62-134 | Every run can be carried on until nobody can move, by the workers alone and without undeceiving a given worker |
| BoundedBufferLiveness.FinalState | disastrOS_semaphores/disastrOS_OurTest.c:358-384 | A run in which all work is done leaves exactly the surplus items, and an all-zero buffer when the sides balance |
| OtherProcesses.LiveKept | disastrOS_semaphores/disastrOS_exit.c:35-58 | A live process stays alive over every step but its own exit |
| OtherProcesses.WaitersKept | disastrOS_semaphores/disastrOS_semwait.c:31-41 | Over any step nobody starts to wait but the caller |
| OtherProcesses.NumbersKept | disastrOS_semaphores/disastrOS_semopen.c:45-70 | No step changes what a descriptor number of another process stands for, and the caller's waits and posts do not change its own |
| BufferOnKernel.EventUnseen | disastrOS_semaphores/disastrOS_schedule.c:14-36 | A tick, or a call other than semWait and semPost of a process that is no worker, changes nothing that the workers see: queues, counters, return values, who is blocked |
| BufferOnKernel.WorkIsTurn | disastrOS_semaphores/disastrOS_OurTest.c:62-83 | A worker's trap is a turn of its program, after which the worker that the kernel switched to goes on with the 0 |
| BufferOnKernel.HaltsExactly | disastrOS_semaphores/disastrOS_semwait.c:36-41 | The kernel halts at a worker's call exactly if its program blocks there and the ready queue is empty |
| BufferOnKernel.KernelRuns | disastrOS_semaphores/disastrOS_OurTest.c:342-384 | Every kernel run with workers in their loops is for them the run of their programs with the same turns, all buffer invariants included |
| BufferOnKernel.PreparedKernelRuns | disastrOS_semaphores/disastrOS_semwait.c:36-41 | With prepared workers, and other processes that make no semWait or semPost, no kernel run takes semWait's no-process-can-run branch and no worker gives up |
| TestOneLoops.LoopsAreReachable | disastrOS_semaphores/disastrOS_OurTest.c:342-348 | The kernel brings the first test's workers from start-up to their loops, where with the values left by their last semOpen they are prepared exactly if the consumer has no rounds and the producer's fit the buffer |

## Left out

- Contexts, stacks, signal handlers and masks, variadic arguments, logging and printing: foreign calls and output.
- Resources (`disastrOS_resource.c`, `disastrOS_descriptor.c` and their calls): semaphores without blocking, so only easier members.
- `disastrOS_semops.c` is not built; `disastrOS_test.c` and the wrong-input demo of `disastrOS_OurTest.c` are manual demonstrations.
- Shutdown and what follows it; `Deadlock`, `AllAsleep` and `Fault` are terminal modes. Exit of init is a `Fault` at once; the source first loops for ever if init has children.
- Widths of machine integers (time, pids, descriptor numbers, counters, pointer differences): unbounded here.
- Signal bits: written by exit and read by nobody.
- System-call numbers and their range checks: a call is a datatype, and a number without handler is `NoCall`.
- The guard of sleep for a process that already has a timer: the source never assigns that field, so the branch is dead.
- The error returns of the pools' release inside close: the invariants make each release one of a held block, on which `VerdictExactly` says it succeeds.
- Timer, pointer and descriptor-pointer pools inside the kernel model are counts, not block lists; the order of their blocks matters nowhere.
- The kernel's own lists are sequences of blocks inside `Kernel`; the pointer-level list is proved separately in `LinkedList`.
- A spawn for which no block is left halts as it begins, without the fields it would have written before the null dereference.
- `wait` stores the child's value through a pointer of the caller; the model records the value delivered in `delivered` instead.
- `BufferOnKernel` follows the workers from the tops of their loops to their ends. Other processes, and workers that have left their loops, may make any call but semWait and semPost, and must not close one of the four semaphores for good (the father keeps them open). What precedes the loops is shown in one run only (`LoopsAreReachable`): there a worker preempted between the return of an open and reading the number can have that overwritten with 0 too (`BlockedWaitMisreports`).
- `DeadlockFreeExactly` counts the work of a worker that gave up as undone, whether or not its giving up leaves anybody blocked; with one item, one producer and one consumer it does not. When it does is `DeadlockedExactly`; there the schedules may switch to processes that are no workers.
- SystemCalls.ExitFaultsExactly: an exit of init counts as a fault at once; the source first loops for ever if init has children.
- ParentField.StepParents: says only that the block exists, because the source gives an orphan's parent field no further meaning.

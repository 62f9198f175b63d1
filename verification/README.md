# A verified model of the operating system

This project models the kernel, the demand pager, the Support Level and the calculator of
the repository in Dafny and proves properties of that model. `MAXPROC`, `POOLSIZE`, the
number of U-procs, the size of the TLB and the contents of the flash devices are symbolic:
every statement is about all of their values. `dafny verify dfyconfig.toml` checks everything.

## How it is put together

**Linked lists** (`ListX`, `PcbLists`, `AslLists`). The circular lists of `headers/listx.h`
on heap nodes with real `next` and `prev` fields. One pool of nodes carries many lists at
once: a PCB owns a node in a process queue, a node in its parent's child list and the head of
its own. The pool's history records which rings its nodes form; the methods of `listx.h`,
`pcb.c` and `asl.c` are proved to change exactly one of them, as a sequence operation, and to
leave all the others, and the fields of the PCBs they do not touch, alone. `container_of` is modelled by the kind and slot of a node, which
stand for its address.

**What the lists mean** (`ProcQueue`, `SemList`, `ProcTree`). Priority queues as sequences,
the active semaphore list as a map from address to queue, the process tree as parent and
child links. The laws of these operations are here, and the kernel is built on them.

**The kernel as a step machine** (`Scheduling`, `Termination`, `Kernel`, `Devices`). One
system call, one trap or one interrupt, up to and including the scheduler's decision, is one
step; LDST and LDCXT end it, HALT, WAIT and PANIC are modes of the state. Clock readings are
parameters of a step. Two history variables record what happened to the ready queue and
which intervals were charged to whom.

**The kernel as it is written** (`KernelLists`, `Nucleus`). The same kernel on the linked
lists themselves, with its loops and recursions: `KernelLists` composes the routines of
`pcb.c` and `asl.c` into creation, blocking, waking, dispatching and
`recursiveTerminateProcess`; `Nucleus` builds `initKernel`, the system calls, the scheduler
and the interrupt handler on that. Each method is proved to make exactly the corresponding
step of the step machine, and `Nucleus.Operate` a whole run of it, from raw storage on.

**What holds in every run of the kernel** (`SchedulingKeeps`, `KernelKeeps`,
`KernelTheorems`, `KernelSemaphores`, `Exhaustion`, `KernelHistory`, `KernelCalls`,
`KernelEffects`, `IoCompletion`). Placement, counters, semaphore law, when semaphore
descriptors suffice, deadlock verdict, bounded waiting, processor time, saved states,
completeness of the tree, the order of PIDs, and what single calls promise their callers.

**Demand paging** (`Paging`, `PagingKeeps`, `PagingRefines`, `PagerCode`, `PagerEffect`,
`Relaunch`). The pager in nine micro-steps between which other processes load, store, refill the TLB and fault. A frame
belongs to the page in its tag except while the pager is between clearing the old PTE and
setting the new one; until the write-back of a page its frame, afterwards the flash holds its
contents. `PagerCode` is the pager over its data: private page tables with their EntryHi and
EntryLo fields, swap pool records with their pointers to PTEs, TLB entries found by VPN and
ASID, flash blocks; from the address of the fault to the last V, with its fatal exits. A store
needs the D bit of the TLB entry; without it the TLB-Mod fault is raised that the pager answers
by ending the process, and no run raises it.

**Support Level** (`SupportLocks`, `TerminalCalls`, `Handshake`). The mutexes of terminal
calls, pager and flash devices with their queues, through deaths and relaunches; the terminal
calls; the handshake between `test()`, the shell and the programs it launches, down to the
single system calls of the routines that end them. That at most one process is past `P` on
`swapPoolSem`, which `Paging` takes for granted, is proved in `SupportLocks`.

**Calculator** (`Calc`). Scanner, printer and one round of the main loop, in 32-bit arithmetic.

## What the statements take for granted

- SYS3 and SYS4 are used on ordinary semaphores only, since `verhogen` does not maintain
  `softBlockCount` (phase2/exception.c:409-435); the clock does not run backwards; ordinary
  semaphores are not negative at boot.
- A kernel run needs a free semaphore descriptor whenever somebody blocks on a new semaphore.
  Termination can leave a descriptor behind with an empty queue, and does so exactly when it
  takes everybody who waits on some semaphore (`KernelSemaphores.StepKeepsNonEmpty`); in every
  run in which that does not happen there is always a descriptor
  (`KernelSemaphores.SparingIsLegal`). Otherwise they can run out, and blocking then loses the
  process (`Exhaustion.DescriptorsRunOut`).
- In the statements about paging runs flash transfers succeed and programs use pages that have a
  PTE. What a failed transfer leaves behind is coherent exactly when the frame was
  empty (`PagerEffect.FailureIsHarmlessIff`).
- In the same runs an ASID is launched only while no frame carries one of its pages. The code
  launches it anyway: that keeps everything coherent exactly under this condition
  (`Relaunch.RelaunchIsCoherentIff`), and without it a store can be lost
  (`Relaunch.RelaunchLosesStore`).
- ENTRYHI_VPN_MASK is defined in a header of the emulator that is not part of this model; the VPN
  is taken relative to KUSEG, bits 29 to 12, as phase2/exception.c:66-72 says.
- A status reaches the caller of a terminal call only with a status byte that is not 0, because
  the interrupt handler wakes nobody otherwise (phase2/interrupt.c:282, 316).
- `SupportLocks.MutualExclusion` excludes a death inside a terminal call, which happens when the
  user buffer faults and the flash fails. `SupportLocks.ExclusionInEveryRun` is what holds
  through such deaths too, `SupportLocks.DeathIsSafeIff` shows that exactly this case breaks the
  rest, and `SupportLocks.TerminalIsLost` what follows.

## Where code and documentation disagree

- A comment in `insertBlocked` wants the descriptor in its "correct position", and the walk
  compares addresses; the descriptor goes in front of the last node passed. So an ascending list
  stays ascending exactly when it was empty: `AslLists.SortedOnlyWhenFirst`. Nothing depends on
  the order, as `AslLists.MapInsert` shows.
- README.md:189 says the shell proceeds only after the child has fully terminated. The child
  signals before TERMPROCESS: `Handshake.ExecuteReturns` says exactly when the child has
  terminated, and `Handshake.ChildMayOutliveExecute` shows a run in which it has not.
- `int_to_str` prints the smallest 32-bit number as a lone sign; `Calc.PrintThenScan` is an
  equivalence for that reason.

## Model

| member | source | states |
|---|---|---|
| ProcQueue.InsertSorted | phase1/pcb.c:67-86 | insertion keeps a queue in descending priority |
| ProcQueue.InsertIsFifo | phase1/pcb.c:67-86 | insertion appends to its own priority band and leaves every other band as it was |
| ProcQueue.EqualPrioritiesAppend | phase1/pcb.c:67-86 | among processes of equal priority insertion is appending: the queue is first in, first out |
| ProcQueue.InsertAllIsStableMerge | phase2/interrupt.c:214-221 | inserting a queue one by one is a stable merge: per band the old members come first, then the new ones, each in their order |
| ProcQueue.BandsDetermineQueue | phase1/pcb.c:67-86 | sortedness and the contents of the bands determine a queue completely, so the two laws above leave no freedom |
| ProcQueue.RemoveMembers | phase1/pcb.c:122-141 | `outProcQ` takes out exactly the process named |
| ProcQueue.MinusRemove | phase2/functions.c:224-282 | taking processes out one after the other is taking out their set, order of the rest unchanged |
| ProcQueue.BoundedWaiting | phase1/pcb.c:67-115 | over any history of a queue, an entry with m entries ahead sees at most m + h dispatches before its own, h counting later insertions of strictly higher priority |
| SemList.InsertConserves | phase1/asl.c:37-75 | free and active descriptors stay a partition of the pool across `insertBlocked` |
| SemList.RemoveConserves | phase1/asl.c:82-103 | the same across `removeBlocked`, which reclaims the descriptor of an emptied queue |
| SemList.OutConserves | phase1/asl.c:106-124 | the same across `outBlocked`, which leaves an emptied descriptor active |
| SemList.DescriptorsSuffice | phase1/asl.c:50-53 | while no active queue is empty, a process in no queue can be blocked on any semaphore: `insertBlocked` does not fail (pigeonhole over MAXPROC) |
| ListX.AddKeeps | headers/listx.h:104-109 | on pointers: the four writes of `__list_add` put the node where it belongs in one ring and leave every other ring of the shared pool a ring with the same members |
| ListX.DelKeeps | headers/listx.h:143-159 | on pointers: the writes of `list_del` close one ring over the node, leave the node alone in a ring of its own and all other rings untouched |
| ListX.InitKeeps | headers/listx.h:92-95 | `INIT_LIST_HEAD` makes an empty ring and disturbs none |
| ListX.Memory.InitListHead | headers/listx.h:92-95 | the method on heap nodes, tied to the abstract rings |
| ListX.Memory.AddBetween | headers/listx.h:104-109 | `__list_add` on heap nodes: exactly one ring changes, by one member at the given place |
| ListX.Memory.ListAdd | headers/listx.h:119-121 | `list_add` behind any node of a ring, head or member |
| ListX.Memory.ListAddTail | headers/listx.h:131-133 | `list_add_tail` appends |
| ListX.Memory.ListDel | headers/listx.h:143-159 | `list_del`: exactly one ring loses exactly the node, which becomes an empty ring |
| ListX.Memory.ListIsLast | headers/listx.h:169-171 | true exactly for the last member |
| ListX.Memory.ListEmpty | headers/listx.h:180-182 | true exactly for the head of an empty ring |
| ListX.Memory.ListNext | headers/listx.h:192-197 | the neighbour, the head behind the last member, null in an empty ring |
| ListX.Memory.ListPrev | headers/listx.h:207-212 | the neighbour in front, likewise |
| PcbLists.PcbTable.InitPcbs | phase1/pcb.c:8-14 | the free list holds every PCB once, the last slot first |
| PcbLists.PcbTable.FreePcb | phase1/pcb.c:17-19 | the free list gets the PCB in front; every other queue, both descriptor lists, the tree and all PCB fields stay |
| PcbLists.PcbTable.AllocPcb | phase1/pcb.c:33-56 | null exactly when no PCB is free, else the first one, out of every queue, without parent and children, fields cleared, priority 0, with the next PID; every other queue, both descriptor lists and the fields of all other PCBs stay |
| PcbLists.PcbTable.MkEmptyProcQ | phase1/pcb.c:59-61 | an empty queue, nothing else |
| PcbLists.PcbTable.EmptyProcQ | phase1/pcb.c:63-65 | true exactly for the empty queue |
| PcbLists.PcbTable.InsertProcQ | phase1/pcb.c:67-86 | the walk over the pointers terminates and changes exactly this queue, as ProcQueue.Insert says |
| PcbLists.PcbTable.HeadProcQ | phase1/pcb.c:89-99 | the first process or null |
| PcbLists.PcbTable.RemoveProcQ | phase1/pcb.c:103-115 | takes the first process out of exactly this queue |
| PcbLists.PcbTable.OutProcQ | phase1/pcb.c:122-141 | takes the process out if it is there, else returns null and changes nothing |
| PcbLists.PcbTable.EmptyChild | phase1/pcb.c:143-145 | true exactly for a process without children |
| PcbLists.PcbTable.InsertChild | phase1/pcb.c:147-151 | the tree becomes ProcTree.InsertChild of the old one; no queue and no descriptor list changes |
| PcbLists.PcbTable.RemoveChild | phase1/pcb.c:154-166 | null for a process without children, else the first child leaves, as ProcTree.RemoveChild says; no queue and no descriptor list changes |
| PcbLists.PcbTable.OutChild | phase1/pcb.c:171-179 | the tree becomes ProcTree.OutChild of the old one; null for no process and for one without parent; no queue and no descriptor list changes |
| AslLists.MapInsert | phase1/asl.c:61-69 | where a descriptor is put into the active list does not matter to what the list means |
| AslLists.AslTable.constructor | phase1/asl.c:4-6 | static storage with this layout exists |
| AslLists.AslTable.InitASL | phase1/asl.c:12-23 | all descriptors free, none active, process queues untouched |
| AslLists.AslTable.InsertBlocked | phase1/asl.c:37-75 | on pointers: refines SemList.InsertBlocked, TRUE exactly when a descriptor is needed and none is free; free list, ready queue and tree untouched |
| AslLists.AslTable.RemoveBlocked | phase1/asl.c:82-103 | on pointers: refines SemList.RemoveBlocked, result included; the PCB handed out is in no queue, ready for `insertProcQ` |
| AslLists.AslTable.OutBlocked | phase1/asl.c:106-124 | on pointers: refines SemList.OutBlocked on the process's own p_semAdd |
| AslLists.AslTable.HeadBlocked | phase1/asl.c:127-146 | the first process blocked on the semaphore or null |
| AslLists.AslTable.BlockedCount | phase1/asl.c:149-172 | the number of processes blocked on the semaphore |
| AslLists.AslTable.FindPlace | phase1/asl.c:61-69 | the walk ends at the one place the keys determine: behind the whole list if no leading key is at most the new one, else before the last of them |
| AslLists.SortedOnlyWhenFirst | phase1/asl.c:61-69 | a new key put at that place into an ascending list leaves it ascending exactly when the list was empty |
| Devices.GetHighestPriorityDevice | phase2/interrupt.c:106-112 | the lowest bit set, or -1 exactly when there is none |
| Devices.RoutingAgrees | phase2/exception.c:478-494 | for every register of every device, `doIO` blocks on the semaphore the interrupt handler of that device looks at |
| Devices.AddressIsRegister | phase2/exception.c:469-494 | every accepted address below the last belongs to exactly one device register |
| Devices.LastAddressAliases | phase2/exception.c:469 | the last accepted address belongs to no register, yet leads to the transmitter of terminal 0 |
| ProcTree.FindIsComplete | phase2/functions.c:178-196 | `findInTree` from rootProcess returns a process exactly when it is alive with that PID |
| ProcTree.PostMembers | phase2/functions.c:224-238 | the processes visited from p are exactly the live ones with p among their ancestors |
| ProcTree.PostNoDup | phase2/functions.c:224-238 | each of them once |
| ProcTree.SpawnKeepsTree | phase2/exception.c:253-294 | creating a child keeps the tree a tree: one root, consistent links, distinct PIDs that grow downwards |
| ProcTree.EraseKeepsTree | phase2/functions.c:224-282 | erasing a subtree keeps it one, and exactly the subtree dies |
| KernelLists.Lists.InitKernel | phase2/initial.c:25-80 | over the linked lists: `initPcbs`, `initASL`, the empty ready queue, the loop over the semaphores, `allocPcb` and `insertProcQ` give the boot state |
| KernelLists.Lists.Create | phase2/exception.c:253-294 | the list part of SYS1: `allocPcb`, then `insertChild` under the running process and `insertProcQ`, or null and no change |
| KernelLists.Lists.WakeFirst | phase2/exception.c:420-434 | the wake-up path: `removeBlocked`, then `insertProcQ` into the ready queue, moves exactly the first waiter |
| KernelLists.Lists.Block | phase2/functions.c:112-152 | `insertBlocked` for the running process, its result ignored |
| KernelLists.Lists.DispatchFirst | phase2/scheduler.c:12-18 | `removeProcQ` of the ready queue gives the running process |
| KernelLists.Lists.RequeueCurrent | phase2/interrupt.c:177-193 | the running process goes back into the ready queue at its place |
| KernelLists.Lists.Find | phase2/functions.c:178-196 | the recursion of `findInTree` over the child lists returns what the search of the abstract tree returns |
| KernelLists.Lists.RecursiveTerminate | phase2/functions.c:224-282 | the recursion over the linked lists, with `removeChild`, `outBlocked`, `outProcQ`, `outChild` and `freePcb`, terminates and does to tree, queues, semaphores and counters exactly what Termination.Kill says |
| SchedulingKeeps.BlockPlacedIff | phase2/functions.c:112-152 | blocking keeps every PCB in a place exactly when a descriptor is available, since the result of `insertBlocked` is ignored |
| SchedulingKeeps.PasserenKeeps | phase2/exception.c:371-393 | P keeps placement, counters, semaphore law, order and history |
| SchedulingKeeps.VerhogenKeeps | phase2/exception.c:409-435 | V keeps them; with a result of at most 0 it always finds a waiter, the first in the queue, and otherwise none |
| SchedulingKeeps.AwaitDeviceKeeps | phase2/exception.c:496-515 | `doIO` and `waitForClock` keep them |
| SchedulingKeeps.DeviceDoneKeeps | phase2/interrupt.c:352-362 | a device interrupt keeps them and wakes exactly the first waiter if there is one |
| SchedulingKeeps.WakeAllKeeps | phase2/interrupt.c:213-221 | the loop of the clock tick keeps them, wakes everybody in queue order and leaves the queue empty |
| SchedulingKeeps.TickKeeps | phase2/interrupt.c:203-226 | the whole tick keeps them, including the reset of the semaphore |
| SchedulingKeeps.DispatchKeeps | phase2/scheduler.c:12-18 | dispatching keeps them |
| SchedulingKeeps.RequeueKeeps | phase2/interrupt.c:177-193 | yield and end of quantum keep them |
| SchedulingKeeps.AdmitKeeps | phase2/exception.c:253-294 | process creation keeps them |
| SchedulingKeeps.UnqueueAllKeeps | phase2/functions.c:241-281 | forced termination of any set of live processes keeps them |
| Termination.Kill | phase2/functions.c:224-282 | `recursiveTerminateProcess`: terminates because every call marks one more process; never unmarks one |
| Termination.KillIsExact | phase2/functions.c:224-282 | in any state that still contains the subtree, the queues see exactly its members in postorder and the tree loses exactly them |
| Termination.UnqueueAllIsCut | phase2/functions.c:241-281 | every queue becomes its old sequence minus the set in unchanged order, each ordinary semaphore rises by its waiters in the set, device semaphores keep their value, the counters drop by the right numbers |
| Termination.KillFreesSubtree | phase2/functions.c:224-282 | terminating a live process does that for exactly its descendants and itself, and for nobody else |
| Termination.KillKeeps | phase2/functions.c:224-282 | termination keeps the tree and all scheduling invariants |
| KernelKeeps.ScheduleKeeps | phase2/scheduler.c:11-34 | the scheduler keeps the kernel invariant and establishes what its verdict means |
| KernelKeeps.CreateKeeps | phase2/exception.c:253-294 | SYS1 keeps the kernel invariant, also when no PCB is free |
| KernelKeeps.TerminateKeeps | phase2/exception.c:310-351 | SYS2 keeps it: caller, other process, unknown PID, and a target whose subtree contains the caller |
| KernelKeeps.TrapKeeps | phase2/functions.c:342-376 | a trap of a process without support structure keeps it |
| KernelKeeps.StepKeeps | phase2/exception.c:170-236 | every system call, trap and interrupt keeps the kernel invariant |
| KernelTheorems.BootKeeps | phase2/initial.c:25-80 | `initKernel` and the first scheduling establish it |
| KernelTheorems.EveryRunKeeps | phase2/initial.c:25-80 | it holds after every run from boot |
| KernelTheorems.ExactlyOnePlace | phase2/functions.c:112-152 | every PCB is in exactly one of free list, ready queue, one semaphore queue, running |
| KernelTheorems.CountersExact | phase2/functions.c:135-137 | processCount is the number of PCBs in use, softBlockCount the number of processes in device and clock queues |
| KernelTheorems.VerdictExact | phase2/scheduler.c:11-34 | HALT exactly when all PCBs are free; PANIC exactly when there are live processes and all are blocked on ordinary semaphores; WAIT exactly when nobody is ready and somebody is blocked on a device or the clock |
| KernelTheorems.DeadlockIsReal | phase2/scheduler.c:30-33 | after PANIC no device interrupt and no clock tick could make anybody ready |
| KernelSemaphores.KillSpares | phase2/functions.c:224-282 | termination leaves no empty active descriptor exactly when every semaphore queue holds somebody outside the subtree of the target |
| KernelSemaphores.StepKeepsNonEmpty | phase1/asl.c:95-124 | a step leaves an empty active descriptor behind exactly when it terminates everybody who waits on some semaphore; passing an exception up and every other step never do |
| KernelSemaphores.SparingIsLegal | phase2/functions.c:144 | in every run in which no step terminates everybody who waits on some semaphore the descriptors suffice, with no assumption about them |
| KernelSemaphores.SparingIsExact | phase2/functions.c:144 | and the legal runs without empty active descriptors are exactly those |
| Exhaustion.DescriptorsRunOut | phase2/functions.c:144 | for MAXPROC of at least 2: a run of the kernel from boot after which nobody waits on any semaphore, and yet the next process that has to block finds no descriptor and is in no place afterwards |
| Exhaustion.OneProcessNeverStuck | phase2/functions.c:144 | for MAXPROC = 1 every run is legal: a descriptor is always left |
| KernelSemaphores.SemaphoreLaw | phase2/exception.c:371-435 | after every run each ordinary semaphore has max(0, -value) waiters, and each device semaphore is at most 0 with minus its value at least its waiters |
| KernelSemaphores.SignalWakesFirst | phase2/exception.c:409-435 | V makes the first waiter ready behind the ready processes of its priority, exactly when somebody waits, and touches no other queue |
| KernelSemaphores.DeviceWakesFirst | phase2/interrupt.c:282-362 | a served interrupt wakes exactly the first waiter, hands it the status, lowers softBlockCount by one; nobody else is touched |
| KernelSemaphores.TickIsStableMerge | phase2/interrupt.c:203-226 | a tick wakes all clock waiters and only them, merges them stably into the ready queue, lowers softBlockCount by their number and sets the semaphore to 0 |
| IoCompletion.CallerBlocks | phase2/exception.c:463-515 | SYS5 on a register of a device puts its caller into the queue of the semaphore of that device, in its place |
| IoCompletion.OneStep | phase2/interrupt.c:241-376 | what any step of the kernel does to a waiter of a device: terminates it, or wakes it with the status if it is first and the interrupt is that of its device and half, or leaves it waiting behind the same processes at most and newcomers of higher priority |
| IoCompletion.IoIsAnswered | phase2/exception.c:463-515 | SYS5 from end to end in every run: its caller stays in the queue of the device and half of its register, in its place, until it is terminated or an interrupt of that device, for a terminal with a status byte of that half that is not 0, finds it first; then it is ready with that status in a0 |
| KernelHistory.StepAdds | phase2/functions.c:307-316 | a step charges nobody but the process that was running, for time within the step only |
| KernelHistory.TimeNotChargedTwice | phase2/functions.c:307-316 | charged intervals never overlap, dead processes included, and add up to at most the time since boot; p_time is what was charged |
| KernelHistory.CPUTimeIsCharged | phase2/exception.c:531-537 | what SYS6 returns is the sum of the intervals charged to the caller, at most the time since boot |
| KernelHistory.DispatchedInTime | phase2/scheduler.c:12-18 | bounded waiting in the running kernel, for every run from every reachable state: a ready process with m others ahead that is neither dispatched nor terminated has seen at most m + h dispatches, and is still ready |
| KernelHistory.TreeComplete | phase2/functions.c:178-196 | the live processes are exactly those below rootProcess, and a PID finds its process exactly while it lives |
| KernelHistory.KillRootHalts | phase2/functions.c:224-282 | terminating rootProcess frees every PCB and the scheduler halts |
| KernelCalls.CreateReturnsChild | phase2/exception.c:253-294 | SYS1 tells the caller the PID of a process that did not exist, the next in order; it is found under that PID, is ready and is its last child; -1 and nothing else when no PCB is free |
| KernelCalls.TerminateTargets | phase2/exception.c:318-334 | SYS2 is about the caller for 0, else about exactly the live process with that PID; with an unknown PID it only charges the caller |
| KernelCalls.TerminatedIsGone | phase2/exception.c:336-350 | exactly the subtree of the target is gone, its PID finds nobody, and the caller goes on unless it was in that subtree |
| KernelCalls.TrapEndsOrPasses | phase2/functions.c:342-376 | a trap leaves everything as it was for a process with a support structure, and ends any other one with exactly its descendants |
| KernelCalls.SignalUndoesWait | phase2/exception.c:371-435 | V undoes P: a process blocked on a semaphore at 0 and woken by the next V is ready as if it had yielded, with semaphore, descriptor pool and counters as before |
| KernelEffects.ValueStep | phase2/exception.c:371-515 | what one step does to each semaphore: P, SYS5 and SYS7 take 1 from theirs, V adds 1, a served interrupt adds 1 to a negative one, the tick ends at 0, a termination adds 1 to an ordinary one for each waiter it takes; nothing else happens to any |
| KernelEffects.SemaphoreAccount | phase2/exception.c:371-435 | after every run from boot the value of an ordinary semaphore is its initial value plus the V's less the P's plus the waiters terminated: no signal is lost, none counts twice |
| KernelEffects.StateIsKept | phase2/functions.c:112-152 | in any step a running process that stops has the state saved with which it stopped, and one that waits keeps its saved state but for the a0 of somebody who waits for a device or the clock; the tick puts 0 there |
| KernelEffects.StatePersists | phase2/scheduler.c:12-18 | so from the step in which it stops to its next dispatch, in every run, a process keeps its state up to a0 |
| KernelEffects.NoTimeLost | phase2/functions.c:307-316 | a running process has been charged up to the reference point as long as it runs, and up to the very moment at which a step takes the processor from it; the next one is charged from its dispatch on |
| KernelEffects.ProcessorRotates | phase2/interrupt.c:171-198 | after a yield or the end of a quantum the same process goes on exactly if nobody of its priority or above is ready; otherwise the first ready one runs, and it is the last of its priority, the others in their order |
| KernelEffects.PidsAreConsecutive | phase1/pcb.c:53 | in every run the first process has PID 1, and the one created after n others by SYS1 has PID n + 2, which its creator is told |
| Nucleus.Nucleus.InitKernel | phase2/initial.c:25-80 | over the linked lists: `initKernel` over raw static storage establishes the boot state of KernelTheorems |
| Nucleus.Nucleus.Scheduler | phase2/scheduler.c:11-34 | over the linked lists: the scheduler takes the branch, changes the ready queue and enters the mode that Kernel.Schedule says |
| Nucleus.Nucleus.UpdateTime | phase2/functions.c:307-316 | over the linked lists: `updateCPUTime` charges the running process the time since the last reading, and nobody else |
| Nucleus.Nucleus.BlockCurrentProcess | phase2/functions.c:112-152 | over the linked lists: `blockCurrentProcess` charges, counts and queues the running process as Kernel.Charged with Scheduling.BlockCurrent says |
| Nucleus.Nucleus.CreateProcess | phase2/exception.c:253-294 | over the linked lists: SYS1 in both outcomes leaves exactly the state of Kernel.DoCreate |
| Nucleus.Nucleus.TerminateProcess | phase2/exception.c:310-351 | over the linked lists: SYS2, search and recursion included, leaves exactly the state of Kernel.DoTerminate |
| Nucleus.Nucleus.PasserenSys | phase2/exception.c:371-393 | over the linked lists: SYS3 leaves exactly the state of Kernel.DoPasseren |
| Nucleus.Nucleus.VerhogenSys | phase2/exception.c:409-435 | over the linked lists: SYS4 leaves exactly the state of Kernel.DoVerhogen |
| Nucleus.Nucleus.DoIOSys | phase2/exception.c:463-515 | over the linked lists: SYS5 answers a bad address with -1 and changes nothing, else hands the command to the register and blocks on the semaphore of the device |
| Nucleus.Nucleus.GetCPUTimeSys | phase2/exception.c:531-537 | over the linked lists: SYS6 returns the processor time of the caller up to now |
| Nucleus.Nucleus.WaitClock | phase2/exception.c:555-563 | over the linked lists: SYS7 blocks the caller on the clock semaphore, as Kernel.DoAwait says |
| Nucleus.Nucleus.YieldSys | phase2/exception.c:629-641 | over the linked lists: SYS10 requeues the caller and dispatches, as Kernel.DoYield says |
| Nucleus.Nucleus.PassUpOrDieSys | phase2/functions.c:342-376 | over the linked lists: `passUpOrDie` terminates a process without support structure and changes nothing for one that has it |
| Nucleus.Nucleus.QuantumInterrupt | phase2/interrupt.c:171-198 | over the linked lists: the end of a quantum leaves exactly the state of Kernel.DoQuantum |
| Nucleus.Nucleus.ClockInterrupt | phase2/interrupt.c:203-236 | over the linked lists: the clock tick with its loop leaves exactly the state of Kernel.DoTick |
| Nucleus.Nucleus.DeviceInterruptSys | phase2/interrupt.c:241-376 | over the linked lists: an interrupt of lines 3 to 6 leaves exactly the state of Kernel.DoDevice |
| Nucleus.Nucleus.TerminalInterruptSys | phase2/interrupt.c:268-333 | over the linked lists: a terminal interrupt, both halves, leaves exactly the state of Kernel.DoTerminal |
| Nucleus.Nucleus.Handle | phase2/exception.c:170-236 | the kernel over the linked lists makes exactly the step of module Kernel for everything that may come next, and keeps the invariant |
| Nucleus.Nucleus.Run | phase2/exception.c:98-236 | a whole run of the kernel over the linked lists is the run of the step machine, so that every theorem about runs is one about it |
| Nucleus.Nucleus.Operate | phase2/main.c:4-7 | from raw static storage through `initKernel` and the scheduler to the end of any legal run |
| PagingKeeps.StepKeeps | phase3/vmSupport.c:286-362 | coherence of frames, PTEs and TLB is kept by every micro-step of the pager and by everything that can happen between them |
| PagingKeeps.QuietIsExact | phase3/vmSupport.c:301-362 | outside the critical section occupied frames and valid PTEs correspond one to one, no page is in two frames, every TLB entry is off with its PTE or equals it |
| PagingKeeps.FaultIsReal | phase3/vmSupport.c:257-288 | a fault is taken only on a page whose PTE is invalid |
| PagingRefines.StepRefines | phase3/vmSupport.c:286-373 | each step is a step of flat private memory, or none at all |
| PagingRefines.PagingIsFlatMemory | phase3/vmSupport.c:286-373 | in every interleaving of loads, stores, refills with arbitrary replacement, faults, launches and pager steps, each load returns the last store of its ASID to that address or the flash image: no store is lost |
| PagingRefines.VictimIsFifo | phase3/vmSupport.c:294-301 | selection number k takes frame k mod POOLSIZE; evictions begin exactly with number POOLSIZE |
| PagingRefines.SelectionsAreFifo | phase3/vmSupport.c:80-89 | in every run from `initSwapStructs`, selection number k takes frame k mod POOLSIZE and evicts a page exactly when k is at least POOLSIZE |
| PagingRefines.Residency | phase3/vmSupport.c:294-322 | a page keeps its valid PTE for as many selections as there are frames before its own, and is being evicted with the next one |
| PagingRefines.JustLoaded | phase3/vmSupport.c:345-362 | for a page just loaded that number is POOLSIZE - 1 |
| PagingRefines.NoTlbMod | phase3/vmSupport.c:357-358 | in every run each PTE of a launched ASID and each TLB entry has its D bit, so that no TLB-Mod fault is ever raised and a program can store wherever it can load |
| PagerCode.IndexRecoversEntry | phase3/vmSupport.c:286-288 | from the VPN of any PTE pager and refill handler find that PTE, so a TLB probe by VPN and ASID is a probe by page |
| PagerCode.EntryIsOfAddress | phase3/initProc.c:88-105 | the VPN in entry i of a page table is that of an address exactly when the address lies in page i: 31 pages from 0x80000000 on, and the page below 0xC0000000 |
| PagerCode.HandlersFindEntry | phase2/exception.c:63-85 | the entry that refill handler and pager compute from an address has the VPN of that address exactly when the program may use it, and is then the entry of its page |
| PagerCode.VirtualMemory.InitSwapStructs | phase3/vmSupport.c:80-89 | all frames free, the mutex at 1, the clock at 0 |
| PagerCode.VirtualMemory.InitPageTable | phase3/initProc.c:88-105 | entry i of the ASID gets VPN 0x80000 + i, the last one 0xBFFFF, the ASID, the D bit and no V bit; all other page tables stay |
| PagerCode.VirtualMemory.LaunchUproc | phase3/initProc.c:154-181 | launching any ASID, whatever is left of its last run, puts its PTEs off and nothing else |
| PagerCode.VirtualMemory.UpdateTLBEntry | phase3/vmSupport.c:119-137 | the entry with the EntryHi of the PTE, if the probe finds one, gets the PTE; the others stay |
| PagerCode.VirtualMemory.RefillHandler | phase2/exception.c:53-95 | from the missed address: the refill step of module Paging, whatever entry is replaced; the entry written matches the address, so that the retry hits it, exactly when the address is one the program may use |
| PagerCode.VirtualMemory.Enter | phase3/vmSupport.c:278 | P on a free swapPoolSem, as the step of module Paging |
| PagerCode.VirtualMemory.Select | phase3/vmSupport.c:294-301 | the choice of the victim, as the step of module Paging |
| PagerCode.VirtualMemory.Invalidate | phase3/vmSupport.c:302-308 | through the pointer in the record of the frame, the PTE of the very page in the frame goes off |
| PagerCode.VirtualMemory.FlushVictim | phase3/vmSupport.c:310-313 | its TLB entry follows |
| PagerCode.VirtualMemory.WriteFlash | phase3/vmSupport.c:315-321 | the contents of the frame reach the block of that page on the device of its ASID |
| PagerCode.VirtualMemory.ReadFlash | phase3/vmSupport.c:327-339 | the block of the faulting page reaches the frame |
| PagerCode.VirtualMemory.RetagFrame | phase3/vmSupport.c:345-347 | the three fields of the record name the new page and point to its PTE |
| PagerCode.VirtualMemory.MapPage | phase3/vmSupport.c:357-358 | the PTE gets the physical address of the frame, 0x20020000 + f * 0x1000, with D and V; EntryHi stays |
| PagerCode.VirtualMemory.SyncPage | phase3/vmSupport.c:360-362 | its TLB entry follows |
| PagerCode.VirtualMemory.Pager | phase3/vmSupport.c:257-374 | the whole routine, undisturbed, from the exception code and the address: the process ends exactly for TLB-Mod (code 24) or a failed transfer; for TLB-Mod nothing else happens; otherwise P, the steps in their order, and V; with a failed transfer the steps up to it, V and the end of the process; the mutex is free afterwards on every path |
| PagerEffect.PagerServes | phase3/vmSupport.c:257-374 | what a served fault means: the page is in the frame at the clock hand with the contents of its block and does not fault again, the evicted page is saved and off, no other page, block or frame has changed, everything is coherent |
| PagerEffect.FailureIsHarmlessIff | phase3/vmSupport.c:317-338 | what a failed transfer leaves is coherent exactly when the frame was empty |
| PagerEffect.PagerIsCoherentIff | phase3/vmSupport.c:317-338 | a call of the pager leaves everything coherent exactly when it had a TLB-Mod fault, an empty frame, or no failed transfer |
| Relaunch.RelaunchIsCoherentIff | phase3/initProc.c:88-105 | launching an ASID, outside the critical section, keeps frames, PTEs and TLB coherent exactly when no frame carries a page of that ASID |
| Relaunch.RelaunchLosesStore | phase3/sysSupport.c:281-300 | a run from boot, for any TLB and a pool of 3 to 32 frames: shell, program, shell, and the second launch of that program while its page is still in a frame; then only that program runs, and a load of it does not return its last store |
| SupportLocks.StepKeeps | phase3/vmSupport.c:278-365 | every step of every U-proc keeps each mutex in agreement with who is where in the code, if nobody dies inside a terminal call |
| SupportLocks.MutualExclusion | phase3/sysSupport.c:130-155 | after every run in which nobody dies inside a terminal call, relaunched programs included, at most one process is in each critical section, and a mutex is free exactly when nobody is |
| SupportLocks.ExclusionInEveryRun | phase3/vmSupport.c:278-365 | after every run whatsoever at most one process is in each critical section, and swapPoolSem and the flash mutexes are free exactly when nobody is in theirs |
| SupportLocks.HoldsOnlyLower | phase3/vmSupport.c:186-195 | who waits for a lock holds only locks of lower rank, and no two of one rank: terminal, swap pool, flash, also when a terminal call page-faults |
| SupportLocks.NoCircularWait | phase3/vmSupport.c:278-365 | no chain of waiting processes closes, and none has more than three waits |
| SupportLocks.SomebodyRuns | phase3/vmSupport.c:278-365 | every blocked process is behind a live process that is not blocked |
| SupportLocks.PagerFinishes | phase3/vmSupport.c:278-365 | the owner of swapPoolSem comes closer to its V with each step, and nobody sets it back |
| SupportLocks.OnlyFailureIsFatal | phase3/vmSupport.c:301-362 | in every run a U-proc is on its way to death in the pager exactly when a transfer of its own has failed since its last fault; with a free frame or behind a write-back that succeeded it goes on to the read, behind that read it may leave, and without a failure it is back in its program |
| SupportLocks.DeathIsSafeIff | phase3/vmSupport.c:213-219 | a death leaves the mutexes sound exactly when the process is in no terminal call |
| SupportLocks.DeathOrphans | phase3/vmSupport.c:327-339 | otherwise its terminal mutex has been acquired by a process that no longer exists, and nobody is in the critical section |
| SupportLocks.OrphanedForEver | phase3/vmSupport.c:327-339 | and then, whatever is done, launching that U-proc again included, whoever waits for that mutex waits for ever |
| SupportLocks.TerminalIsLost | phase3/vmSupport.c:327-339 | this is reached from boot: the user buffer of a terminal call faults and the flash read fails, so that the pager ends the process; in every continuation nobody gets that terminal again |
| TerminalCalls.Terminal.WriteTerminal | phase3/sysSupport.c:119-158 | SYS4: trap exactly for a bad length or pointer, and nothing is sent; otherwise each DOIO commands the transmitter of terminal 0 to send the next character, up to the end or the first failure; the mutex is given back |
| TerminalCalls.Terminal.ReadTerminal | phase3/sysSupport.c:188-229 | SYS5: trap exactly for a bad pointer; otherwise each DOIO commands the receiver of terminal 0, up to the first newline, 128 characters or the first failure; the buffer holds bits 15 to 8 of the status words in order; the mutex is given back |
| TerminalCalls.TypedLineComesBack | phase3/sysSupport.c:188-229 | a line of at most 128 characters, its newline included, comes back as it was typed, with its length |
| TerminalCalls.LongLineIsCut | phase3/sysSupport.c:205-223 | of a longer line the first 128 characters come back |
| TerminalCalls.ReadFails | phase3/sysSupport.c:205-223 | a failure ends the call with the negated status; what was typed before it is in the buffer |
| TerminalCalls.WrittenIs | phase3/sysSupport.c:137-157 | SYS4 sends everything if no DOIO fails and otherwise stops behind the first that does, with the negated status |
| TerminalCalls.SignTellsFailure | phase3/sysSupport.c:144-215 | the result of either call is negative exactly when its last DOIO failed with a status of at most 0x80000000 |
| TerminalCalls.RegistersAre | phase3/sysSupport.c:134-202 | the registers the two calls command lead to the semaphores 40 and 32, those of terminal 0 |
| Handshake.StepKeeps | phase3/sysSupport.c:57-88 | the handshake invariant is kept by SYS6, by each system call of the routines that end a U-proc, by TERMPROCESS of the shell and of `test()` |
| Handshake.ExecuteWaitsForSignal | phase3/sysSupport.c:296-303 | in every reachable state at most one child has not signalled, every other one has signalled exactly once, and the n-th Execute returns only after n signals; `test()` is past its P only after the shell signalled, all children are gone when the shell is, and everybody when `test()` has ended |
| Handshake.ReturnIs | phase3/sysSupport.c:296-303 | Execute comes back at a P that finds the signal there, or at the V of the child the shell is blocked behind, and its child has ceased to exist by then exactly when it had done so before that P |
| Handshake.ExecuteReturns | phase3/sysSupport.c:296-303 | the same for every run: a shell that really blocks always returns while its child still exists |
| Handshake.ChildMayOutliveExecute | phase3/sysSupport.c:81-88 | the shortest run in which Execute returns before the end of the child |
| Handshake.FailedLaunchStrands | phase3/sysSupport.c:296-300 | after Execute the shell waits for a signal nobody can give exactly when all PCBs were in use |
| Handshake.StrandedForEver | phase3/sysSupport.c:296-300 | and in that case it never comes back |
| Handshake.ExecuteLaunches | phase3/sysSupport.c:261-300 | Execute launches a program exactly when its ASID is one of 2 to UPROCMAX and a PCB is free; with any other ASID nothing changes |
| Handshake.InUseCounts | phase1/pcb.c:33-37 | the PCBs in use are those of `test()`, of the shell and of each child that is not gone |
| Handshake.CodeGivesBack | phase3/vmSupport.c:317-338 | a U-proc gives swapPoolSem back on its way out exactly after a failed flash operation; it signals `test()` if it is the shell and the shell otherwise |
| Calc.ParseInt | phase3/testers/calc.c:13-21 | the value of the digits with their sign, wrapped to 32 bits, and the index behind them |
| Calc.SkipSpaces | phase3/testers/calc.c:35-37 | the index of the first character that is no space |
| Calc.IntToStr | phase3/testers/calc.c:23-33 | writes the printed form and its terminator into twelve characters, with `tmp[12]` never overrun, for every 32-bit number |
| Calc.DigitsDenote | phase3/testers/calc.c:28 | the digits printed for a number denote that number |
| Calc.PrintThenScan | phase3/testers/calc.c:13-33 | scanning a printed number gives it back and ends behind it, for all 32-bit numbers but exactly the smallest |
| Calc.ScanUndoesPrint | phase3/testers/calc.c:55-61 | scanning printed a, operator, printed b with any spaces gives a, operator, b exactly when neither number is the smallest |
| Calc.RunLine | phase3/testers/calc.c:55-86 | the method: scanner, the four branches, printer; what the answer is, is CalculatorIsRight |
| Calc.QuotientIsTruncated | phase3/testers/calc.c:75 | division truncates towards zero |
| Calc.CalculatorIsRight | phase3/testers/calc.c:55-86 | for every operator that is no digit and no space: a typed sum, difference, product or quotient is answered in decimal with the result, exact if it fits and else the number congruent to it modulo 2^32; a quotient by zero and any other operator with their messages |

## Left out

- SYS8 and SYS9 (`getSupportData`, `getProcessID`), the dispatch on the syscall number and the check for user mode: each hands back one field or selects one of the modelled steps.
- Contents of the passed-up exception state and of the handler contexts: passing up changes none of the modelled kernel state.
- Privileged instructions, timer settings, status bits, stack pointers, RAM layout and `copyState` word by word: a processor state is a value that is assigned as a whole.
- Device controllers: an interrupt is an event with a pending bitmap and status words, a flash transfer takes effect at one moment.
- 32-bit wrap-around of PIDs, clock, times and semaphore values: integers are unbounded everywhere except in Calc and in the results of the terminal calls.
- Whole paging runs after the launch of an ASID whose pages are still in frames, or after a failed flash transfer: from there on the code works with stale tags; the launch and the failed call themselves are in Relaunch and PagerEffect.
- A process killed from outside while it is inside the pager or a terminal call: SupportLocks has only U-procs that end themselves.
- PagerCode.VirtualMemory.Pager: is stated for a call that nobody interrupts, that finds swapPoolSem free and for an address whose index is inside the page table; interleaved runs are in Paging, waiting for the mutex is in SupportLocks.
- PagerCode.VirtualMemory.RefillHandler: is stated for addresses whose index is inside the page table; for VPNs from 32 on, other than 0x3FFFF, the code reads behind `sup_privatePgTbl`, and what it finds there is not part of this model.
- Interrupts whose code is none of 7, 3 and 17 to 21: the handler only resumes or schedules.
- TerminalCalls.Terminal.WriteTerminal: is stated for a call that runs by itself; how calls of several processes share the mutex is in SupportLocks.
- TerminalCalls.Terminal.ReadTerminal: likewise; a fault on the user buffer is in SupportLocks, not here.
- Calc.ParseInt: reading behind the end of a string gives the terminator; that a line fits into the buffer of `main` is not part of this model.
- `klog.c`, the test programs of phases 1 and 2 and the other user programs: logging, fixed scenarios and terminal output.

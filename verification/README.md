# KebabOS: the nucleus and the pager, proved

A Dafny model of two parts of KebabOS, a message-passing microkernel for uRISCV.

**The nucleus** (phase1, phase2). `Kernel` gives every entry point as a function on one state: the process table
with its family links and inboxes, the free lists, the ready queue, the running process, the 48 device queues,
the clock queue, the message pool and the two counters. The class `Nucleus.Nucleus` holds the same state in fields and
arrays and changes it in place, with the loops and the recursion of the C code; each method is proved to do what its
function says. `Runs` makes the functions the steps of a transition system, with arbitrary user computation between
steps; `Frames`, `Structure`, `Mail`, `Pool`, `Soft` and `Requests` prove what each step keeps; `Theorems`, `Waiting`,
`Verdict`, `Turns`, `Answers`, `Contexts`, `Origins`, `Memory` and `Reports` say what follows for steps and whole runs;
`Syscalls` is SEND and RECEIVE as their callers see them; `Cases` and `Dying` are runs in which the code fails its
intent. `ListX` and `ProcQueues` are the intrusive cyclic lists on the heap, proved to do to the links what the sequences
of the other modules do.

**The pager** (phase3/vmSupport.c). `Paging` cuts a page-fault handler at the points where interrupts are enabled;
`PagingInv` and `PagingRuns` let memory accesses, TLB refills, exits and handler steps interleave and prove that the
swap pool, page tables, TLB and flash together are one flat memory per process; `Blocks` says which flash block a page
is and which pages may be written. The class `Pager.Pager` is the handler over mutable tables. `Replacement` is its
replacement order, `PagingCases` are runs that lose pages. `Mutex` is the mutex process with its clients, `MutexReuse`
what it does when table entries of dead clients are reused.

## Reading the model

- A `Word` is a number or the address of a process-table entry (`Pointers` proves that the code's pointer test
  allows this). `initPcbs` pushes entries 0 to 49 onto the free list, so the SSI is entry 49 and the test process 48.
- `softblock_count` is an unsigned 32-bit counter and wraps. `process_count`, pids and program counters do not.
- `rings` says that the p_io links still form the wait queues; allocating an entry that is linked there ends it
  (phase1/pcb.c:71). `logs` record what was sent to and received by the occupant of an entry. Neither is kernel data.
- The body of an SSI service, between its receive and its reply, is one step. Its arguments are unconstrained, so
  more can happen in the model than the SSI's program would do. `Dying` looks inside one such step.
- `Waiting` is the scheduler's WAIT; the next step is then an interrupt.

## Where the code departs from its comments

The model follows the code. Where a property fails, the exact condition under which it holds is proved for all states,
and a run from the start shows the failure (for a stale frame, a run up to the trap that leaves it).

- A process that receives any other message between its DOIO or CLOCKWAIT and the answer loses its request flag
  (phase2/exceptions.c:121-123 and 228-231). It then blocks uncounted, and the scheduler can panic while it sits in the
  clock queue (`Cases.PanicsWithWaiter`). Queued processes stay flagged if and only if the step is `Attentive`
  (`Requests.StepMarked`), and then no such panic happens (`Requests.NoWaiterLost`).
- phase2/utils.c:28 searches the clock queue through `p_list`, though waiters are linked by `p_io`: a killed waiter
  stays queued (`ProcQueues.WrongLinkKeepsAll`), which does the queue no harm until its entry is allocated
  again (`Cases.KilledWaiterStays`). Then the queue is no longer a ring, and once the entry heads it the tick's loop never
  ends (`ProcQueues.ReinitQueued`, `ProcQueues.RemoveStuckHead`). A step keeps the structure if and only if `Legal`
  holds (`Runs.StepStructure`). If the waiter was blocked, it also stays counted (`Cases.DeadStillCounted`).
- A request that is pending at the SSI when its sender is killed is served all the same. A creation then hangs the new
  process below a free entry, which can be its own (`Cases.OrphanAdopted`); it is sound if and only if the requester is
  alive and the allocated entry is in no queue (`Structure.CreateStructure`).
- phase2/utils.c:33-39 means to discount only processes that are blocked, but tests queue membership: killing a
  process between its DOIO and its receive wraps the count around (`Cases.DiscountUnderflows`). The count stays
  exact if and only if `Counted` holds (`Theorems.StepSoftExact`).
- phase2/initial.c:64-65 lets the SSI run with interrupts enabled, and only single list operations mask them. While a
  process is being killed, it and the half-killed ancestors above it in the recursion are out of the ready queue and
  not yet free. A send to one of them wakes it, and it is then freed (`Dying.FreedAndReady`,
  `Dying.ChildFreedAndReady`). From outProcQ (phase2/utils.c:21) to freePcb (line 48) a send does harm if and only if
  it would wake one of these (`Dying.SendToDying`, for every point of the recursion `Dying.SendAtPoint`); before the
  outermost line 21 every send is harmless (`Dying.EntryEndsWell`).
- phase2/scheduler.c:19-26 wants the SSI blocked before it halts, but looks up the SSI's fake address: the machine
  halts if and only if the SSI alone is left (`Verdict.StepVerdict`), even when it is ready (`Cases.HaltsWithSsiReady`).
- phase2/utils.c:46-48 frees a process but not its inbox: those messages are lost for good (`Theorems.StrandedForever`,
  `Cases.MessageStranded`).
- With an empty message pool an interrupt's or the clock's message is dropped (`Cases.TickLost`, `Answers.ClockDropsAll`).
- phase2/scheduler.c:35 masks MIE_MTIE_MASK, which is bit 6 (headers/const.h:81), while the interrupt handler tests bit
  IL_CPUTIMER, which is 7 (headers/const.h:69). Whether the CPU timer can interrupt WAIT, where its handler would
  dereference a NULL `current_process`, depends on the hardware's numbering. The model assumes that it cannot.
- phase3/vmSupport.c:69-135 does not check again, under the mutex, that the page is missing (phase3/sst.c:195-199
  describes the symptom). The tables stay in agreement if and only if the page is not mapped in another frame
  (`PagingRuns.FaultExact`); otherwise the page falls back to its flash block (`PagingRuns.HandleDuplicate`,
  `PagingCases.WriteLost`), which is harmless if and only if it was what it is on flash (`PagingRuns.TransparentExact`).
- phase3/vmSupport.c:66-67 takes the page number from the saved EntryHi once, and lines 107 and 122 read the saved
  EntryHi again after the transfers. The threads of a process share the saved state (phase3/sst.c:183-192). If another
  thread has faulted in between, its page gets the first page's content (`PagingCases.OverwrittenReachable`). The tables
  stay in agreement if and only if the saved EntryHi is still that of the fault (`PagingRuns.RestExact`).
- phase3/vmSupport.c:100-110 traps for a full page table after it has overwritten the frame. The tables agree
  afterwards if and only if the frame was free (`PagingInv.LoadTrap`). A frame in use is reachable
  (`PagingCases.FullTableReachable`); when it is evicted, its former page is overwritten if and only if it has been
  mapped writable elsewhere in the meantime (`PagingCases.StaleEvicted`).
- phase3/vmSupport.c:254-265 gives program and stack pages the same numbers for images of more than 31 pages
  (`PagingInv.ImageLimit`).
- phase3/vmSupport.c:8 sets only the first element of `text_pages` to -1, so other processes get 0 and map all pages
  writable; the model has the same initial values.
- phase3/vmSupport.c:24-41 trusts a table entry to stay the same process. Reuse keeps the protocol if and only if the
  mutex is through with the former occupant (`Mutex.RespawnExact`). Earlier reuse keeps a wider invariant if and only
  if no V of his is pending behind a grant or being answered (`MutexReuse.ReuseExact`), and that invariant implies
  exclusion (`MutexReuse.ExclusionWithReuse`). When the mutex has nobody else to serve, this is also the exact condition
  for exclusion itself (`MutexReuse.ReuseSafe`, `Mutex.ReuseBreaksExclusion`). If he died holding the mutex without V,
  everybody starves (`MutexReuse.ReuseStarves`).

## Model

The main results first, then the failing runs, then what they rest on, module by module.

| member | source | states |
|---|---|---|
| `Theorems.ExactlyOnceInOrder` | phase2/exceptions.c:75-240 | in every state reachable from boot, for every sender and live receiver: what was sent is what was received followed by what is pending, in order, although a send may bypass the inbox |
| `Theorems.NoLostWakeup` | phase2/exceptions.c:114-133 | in every reachable state, whoever is neither free, ready nor running was saved in a RECEIVE, and its inbox holds no message from the sender named in its a1, or none at all if a1 is 0, so the test at line 222 is sound |
| `Syscalls.SendStep` | phase2/exceptions.c:86-113 | a SEND goes on 4 behind its pc; a0 is 0 if and only if the payload was sent to the live process addressed (the parent for 0, the SSI for 2, otherwise the entry named) and to nobody else, -2 if and only if there is none, -1 if and only if there is one and no message is free; without 0 nothing happened; only a request that reached the SSI sets the sender's flag |
| `Syscalls.SendReaches` | phase2/exceptions.c:196-240 | the process addressed returns from its RECEIVE with the payload if its a1 is 0 or the sender; otherwise it keeps registers and place and its inbox has the message last; nobody else is touched |
| `Syscalls.ReceiveStep` | phase2/exceptions.c:114-133 | a RECEIVE takes the first message from the sender in a1, or the first of all for 0, out of the inbox and goes on 4 behind its pc with the sender in a0 and the payload at a2; the process is saved in it if and only if there is no such message |
| `Contexts.ResumesWhereItLeft` | phase2/scheduler.c:45-46 | over every run, a process that leaves the processor and comes back has the registers that it had when the timer took it off, or those of its RECEIVE with a0 the sender of the one message received meanwhile and pc + 4; it leaves in no other way but death |
| `Contexts.TimerPreempts` | phase2/interrupts.c:148-154 | when the CPU timer interrupts and another process is ready, the first in the ready queue runs with the registers saved for it, and the interrupted one is in the queue with its own |
| `Contexts.StartsAsCreated` | phase2/ssi.c:115-129 | over every run, a new process that runs for the first time has the registers given at its creation |
| `Origins.BornOf` | phase2/ssi.c:121-124 | as long as it lives it has the requester as parent and the support structure asked for; at its creation it is the last child and the last in the ready queue |
| `Reports.InterruptReports` | phase2/interrupts.c:18-55 | an interrupt that does not panic sends the SSI the timer's message, then one for each pending line, lowest first, for its lowest pending device, until messages run out (a listening SSI takes one more), and nobody else any |
| `Structure.TerminationEffect` | phase2/utils.c:12-49 | exactly the process and its descendants by parent links become free, the count drops by their number, the ready and device queues lose them and keep their order, survivors lose at most the one child |
| `Nucleus.Nucleus.Terminate` | phase2/utils.c:12-49 | the recursion, on the tree that it takes apart, terminates and purges exactly what `Freed` lists |
| `Runs.StepStructure` | phase2/exceptions.c:54-139 | from every invariant state a step keeps the partition, the tree and the queues if and only if it is legal: one device or clock request at a time, a live parent, no allocation of an entry that is still queued |
| `Theorems.ReachableInv` | phase1/pcb.c:22-74 | in every reachable state free, ready and running are disjoint and each entry is there at most once, every other entry was saved in a RECEIVE, the process count is the number not free, the tree is sound, pids are distinct, no entry is twice in a wait queue, no message structure is in two places |
| `Theorems.StepSoftExact` | phase2/utils.c:33-39 | a step keeps the soft-block count equal to the number of blocked requesters if and only if its condition holds |
| `Theorems.CountedInv` | phase2/exceptions.c:145-152 | in every state that a counted run reaches the soft-block count is exact |
| `Verdict.StepVerdict` | phase2/scheduler.c:14-47 | the machine panics exactly if a handler gives up or everybody left is blocked with its request flag clear, halts exactly if only the SSI is left, waits exactly if somebody blocked has the flag set |
| `Verdict.RunVerdict` | phase2/scheduler.c:14-47 | the same for every step from a state that a counted run from boot reaches |
| `Requests.StepMarked` | phase2/exceptions.c:121-123 | a step keeps every queued process flagged if and only if it gives no queued process a message other than the answer that takes it out, and queues on the clock only who is flagged |
| `Requests.NoWaiterLost` | phase2/scheduler.c:28-43 | in runs of such steps no panic for want of work leaves a blocked process in a device or clock queue: with one there and nobody to run, the machine waits |
| `Requests.AttentiveInv` | phase2/exceptions.c:211-214 | in every state that such a run reaches the count is exact and every queued process is flagged |
| `Turns.OldestServed` | phase2/ssi.c:189-205 | after any run: a device queue holds exactly the outstanding requesters; the completion interrupt serves the one that asked first and sends it, if it is alive and a message is free, the status register; at a terminal the transmitter's queue and status if that status is neither 1 nor 3, otherwise the receiver's; nobody else is sent anything |
| `Turns.TickServesAskers` | phase2/ssi.c:207-214 | after any run the tick answers, with enough messages, exactly the live processes that asked since the last tick; those that await it become ready in the order in which they asked |
| `Waiting.BoundedWaiting` | phase2/scheduler.c:45-46 | over every run with k+1 dispatches a ready process at position k runs, unless it is killed |
| `Theorems.StrandedForever` | phase2/utils.c:46-48 | a message structure stranded by a termination stays stranded; runs that kill nobody strand none; free, pending and stranded always make fifty |
| `Theorems.PidsNeverReused` | phase1/pcb.c:67-68 | pids are issued one after the other, so all differ from each other and from those of the processes alive before |
| `Dying.SendToDying` | phase2/utils.c:20-48 | a send in the middle of a termination that would end well does harm if and only if it would wake one of the processes that have lost their place in the ready queue and are not yet free, counted or not |
| `Dying.SendAtPoint` | phase2/utils.c:31-48 | so at every point of the recursion, with any chain of half-killed ancestors and whoever runs meanwhile |
| `Dying.EntryEndsWell` | phase2/utils.c:12-21 | before outProcQ the termination ends well; there nobody is exposed, so every send is harmless |
| `Dying.UncountedEndsWell` | phase2/utils.c:21-31 | between outProcQ and the decrement of the count it ends well, with the process already exposed |
| `Dying.PointEndsWell` | phase2/utils.c:31-48 | left alone, the termination ends well from every point of the recursion |
| `Dying.PointAddsUp` | phase2/utils.c:31-48 | at every point the dying, the done and the rest are the process and its progeny, each once |
| `PagingRuns.FlatMemory` | phase3/vmSupport.c:66-137 | over every interleaving of accesses, refills, exits, faults of other threads and handler steps in which, when a handler reads the saved EntryHi again, it is still that of its fault, and the conditions of `FaultExact` and `LoadTrap` hold: the page of a live process is what was last written to it |
| `PagingRuns.ReadsLastWritten` | phase3/vmSupport.c:66-137 | over the same runs, a load that the TLB lets through returns the last thing written, or the page's flash block: k for the program page 0x80000 + k with k < 31, 31 + k for the stack page 0xBFFFF - k |
| `Blocks.FirstRead` | phase3/vmSupport.c:254-265 | so a page that nobody has written reads as that block, for every process |
| `Blocks.UnmappedOnFlash` | phase3/vmSupport.c:89-102 | over the same runs, a page that is not mapped has what was last written to it on that block |
| `Blocks.WritablePages` | phase3/vmSupport.c:235-247 | over the same runs, pages of all processes but the first are mapped writable; a page of the first if and only if its first page was loaded and the text size in word 5 of that page ends before the page's block |
| `PagingRuns.FaultExact` | phase3/vmSupport.c:61-135 | a completed handler leaves the tables in agreement if and only if the page was not mapped in another frame |
| `PagingRuns.RestExact` | phase3/vmSupport.c:106-130 | once the frame can be loaded, the handler ends with the tables in agreement if and only if the saved EntryHi is still that of its fault |
| `PagingRuns.TransparentExact` | phase3/vmSupport.c:61-135 | a completed handler leaves everybody's memory as it was if and only if the page was not mapped in another frame or was there what it is on flash |
| `PagingInv.LoadTrap` | phase3/vmSupport.c:106-110 | after a full page table memory is unchanged, and the tables agree if and only if the frame was free |
| `PagingInv.Bijection` | phase3/vmSupport.c:112-125 | a page-table entry is valid if and only if a frame not in transit belongs to it, and then names that frame |
| `PagingCases.StaleEvicted` | phase3/vmSupport.c:74-96 | when a stale frame is evicted, the page it is entered for becomes the stale content exactly if it has been mapped writable in the meantime, and keeps its content otherwise |
| `Replacement.FirstInFirstOut` | phase3/vmSupport.c:157-170 | over every run from the start without exits and traps, with any accesses and refills between and within handlers: the frame that a fault takes is the one loaded longest ago, and sixteen faults in a row take different frames |
| `Mutex.MutualExclusion` | phase3/vmSupport.c:24-41 | over every interleaving at most one client is between its grant and its V, and Ps are granted in the order sent |
| `Mutex.RespawnExact` | phase3/vmSupport.c:24-41 | reusing a dead client's entry keeps the protocol's invariant if and only if the mutex is not dealing with it and holds no P of it |
| `MutexReuse.ExclusionWithReuse` | phase3/vmSupport.c:24-41 | mutual exclusion also over runs that reuse entries while the mutex holds a P of the former occupant or has granted it, if no V of his is pending or being answered |
| `MutexReuse.ReuseSafe` | phase3/vmSupport.c:35-39 | when the mutex serves, or will serve, only the reused entry, and another client is outside: no continuation puts two clients inside if and only if the entry is clean |
| `Devices.RoutingRoundTrip` | phase2/utils.c:72-98 | the queue named by the command address is the queue named by the unpacked interrupt message, and lies in [0,48); the message carries the status register of that (sub)device |
| `Devices.RoutingInjective` | phase2/utils.c:72-98 | different (sub)devices have different queues |
| `ProcQueues.OutProcQ` | phase1/pcb.c:213-249 | unlinking inside the traversal ends, visits every node, and leaves the ring of the nodes that are not the entry's |
| `Cases.PanicsWithWaiter` | phase2/exceptions.c:121-123 | a run from boot that panics with a process in the clock queue, blocked on the SSI: it received another message after its request |
| `Cases.KilledWaiterStays` | phase2/utils.c:28-29 | a legal run from boot that leaves a freed entry in the clock queue, and the allocation that then breaks the queue |
| `Cases.DiscountUnderflows` | phase2/utils.c:33-39 | a run from boot in which killing a process that is not blocked turns the count 0 into 2^32-1 |
| `Cases.HaltsWithSsiReady` | phase2/scheduler.c:19-26 | a run from boot that halts while the SSI, preempted, is in the ready queue |
| `Cases.OrphanAdopted` | phase2/ssi.c:115-129 | a run from boot in which a creation requested by a dead process makes an entry its own parent and child |
| `Cases.DeadStillCounted` | phase2/utils.c:28-39 | a run from boot after which a killed clock waiter stays in the soft-block count |
| `Cases.MessageStranded` | phase2/utils.c:46-48 | a run from boot that strands a message |
| `Cases.TickLost` | phase2/exceptions.c:199-201 | a run from boot that uses up the message pool, and a tick that then reaches nobody |
| `Dying.FreedAndReady` | phase2/utils.c:20-48 | a run from boot, a termination, a timer interrupt in its middle and a send: the killed process is freed and in the ready queue |
| `Dying.ChildFreedAndReady` | phase2/utils.c:42-48 | the same with a child as victim while its parent is being killed |
| `PagingCases.DuplicateReachable` | phase3/vmSupport.c:61-135 | a run from the start after which a thread that waited for the mutex with the same fault maps the page twice |
| `PagingCases.WriteLost` | phase3/vmSupport.c:61-135 | a run in which that loses what was written: the page is its flash block again |
| `PagingCases.OverwrittenReachable` | phase3/vmSupport.c:106-125 | a run from the start in which a second thread's fault replaces the saved EntryHi |
| `PagingCases.FullTableReachable` | phase3/vmSupport.c:106-110 | a run in which a process touches 33 pages and the trap leaves another process's frame stale |
| `Mutex.ReuseBreaksExclusion` | phase3/sysSupport.c:32-39 | a run in which the successor of a client that died inside takes the answer to the dead client's V for its own grant |
| `Theorems.RunSoft` | phase2/exceptions.c:145-152 | the count is exact after every run whose steps meet the condition |
| `Theorems.BootProcesses` | phase2/initial.c:58-90 | after boot entry 49, the SSI, runs with pid 1, entry 48, the test process, is ready with pid 2, all others are free, all queues empty, all fifty messages free, and the next pid is 3 |
| `Theorems.BootInv` | phase2/initial.c:40-89 | the initial state meets all invariants and its soft-block count is exact |
| `Verdict.HandledMode` | phase2/interrupts.c:44-77 | a handler panics by itself exactly if the SSI is to die or a pending line has no pending device |
| `Waiting.WaitShrinks` | phase2/scheduler.c:45-46 | while it waits, its position plus the number of dispatches never exceeds where it started |
| `Waiting.StepMovesUp` | phase2/scheduler.c:45-46 | no step moves a surviving ready process back; a dispatch moves it up or runs it |
| `Waiting.StepSchedules` | phase2/scheduler.c:14-47 | every event ends in the scheduler or leaves the running process running |
| `Waiting.HandledReady` | phase2/exceptions.c:222-227 | handlers only append to the ready queue or take killed processes out of it, in order |
| `Runs.StepMail` | phase2/exceptions.c:75-240 | every step keeps order and wakeups for every live process |
| `Runs.StepPool` | phase1/msg.c:8-40 | every step keeps message structures in one place and strands exactly those pending for the processes it kills |
| `Runs.StepInReceive` | phase2/exceptions.c:145-152 | every step keeps that only a RECEIVE blocks a process |
| `Runs.StepInv` | phase2/exceptions.c:54-139 | every legal step keeps the whole invariant |
| `Runs.Exec` | phase2/exceptions.c:54-139 | the invariant holds after every legal run |
| `Runs.TrapStructure` | phase2/exceptions.c:269-282 | a trap keeps the structure, whoever dies of it |
| `Structure.TerminatedStructure` | phase2/utils.c:12-49 | termination keeps the structure if and only if it does not kill the running process, clock waiters included |
| `Structure.FreedSet` | phase2/utils.c:41-48 | what is freed is the progeny, and each entry once |
| `Structure.SsiSurvives` | phase2/utils.c:14-15 | terminating anybody else never frees the SSI |
| `Structure.CreateStructure` | phase2/ssi.c:115-129 | creation keeps the structure if and only if the requester is alive and the allocated entry is in no queue |
| `Structure.DoIoStructure` | phase2/ssi.c:143-159 | DOIO keeps the structure if and only if the requester is queued neither on the clock nor on another device |
| `Structure.WaitForClockStructure` | phase2/ssi.c:168-171 | CLOCKWAIT keeps the structure if and only if the requester is in no queue |
| `Structure.SendStructure` | phase2/exceptions.c:196-240 | a send keeps the structure |
| `Structure.SendFrame` | phase2/exceptions.c:222-240 | a send changes no links and at most appends the receiver, which was neither ready nor running, to the ready queue |
| `Structure.ReceiveStructure` | phase2/exceptions.c:114-133 | a receive keeps the structure |
| `Structure.SchedulerStructure` | phase2/scheduler.c:14-47 | dispatch keeps the structure |
| `Structure.InterruptStructure` | phase2/interrupts.c:18-55 | an interrupt with any pending lines keeps the structure |
| `Tree.FreedIsProgeny` | phase2/utils.c:41-48 | an entry is freed if and only if it is live and the killed process is among its ancestors |
| `Tree.FreedNoDup` | phase2/utils.c:41-48 | no entry is freed twice |
| `Tree.FreedClosed` | phase2/utils.c:41-44 | the children of freed processes are freed |
| `Tree.FreedBelow` | phase2/utils.c:41-44 | what is freed is live, younger than the killed process and the child of something freed |
| `Tree.SiblingsDisjoint` | phase2/utils.c:41-44 | the progenies of two children do not meet |
| `Killing.ChildReady` | phase2/utils.c:42-44 | in the half-dismantled tree the first remaining child can be terminated, and that brings the loop one child further |
| `Killing.NextPartial` | phase2/utils.c:42-44 | the recursion on a child composes with what is already done |
| `Killing.PartialStep` | phase2/utils.c:42-44 | purging in two portions is purging once, for links, queues and both counters |
| `Mail.PopIsFirst` | phase1/msg.c:112-140 | popMessage takes the first message from the sender named, or the first of all for 0, leaves the order of the others, and finds none if and only if there is none from that sender, or none at all |
| `Mail.PopIsOldest` | phase1/msg.c:112-140 | what it takes is its sender's oldest pending message |
| `Mail.SendMail` | phase2/exceptions.c:196-240 | a send keeps order and wakeups for all processes |
| `Mail.HandoverMail` | phase2/exceptions.c:222-233 | bypassing the inbox of a blocked receiver does not overtake anything from the same sender |
| `Mail.EnqueueMail` | phase2/exceptions.c:234-236 | queueing keeps order, and a blocked receiver would not have taken the message |
| `Mail.TakeMail` | phase2/exceptions.c:118-127 | receiving a pending message keeps order |
| `Mail.BlockMail` | phase2/exceptions.c:128-131 | blocking leaves nothing acceptable behind |
| `Mail.ReceiveMail` | phase2/exceptions.c:114-133 | a receive keeps order and wakeups for all processes |
| `Mail.SendReportsTruth` | phase2/exceptions.c:196-240 | a send returns 0 exactly if the message is recorded as sent to that receiver and only to it, MSGNOGOOD exactly if the pool is empty |
| `Mail.ReceiveSeesLogged` | phase2/exceptions.c:158-181 | the first message from the sender named, or the first of all, is what is recorded as received and what the receiver finds in a0 and at its payload address |
| `Mail.HandoverSeesLogged` | phase2/exceptions.c:222-233 | the same for a receiver woken by a send, which uses no message structure |
| `Syscalls.SendWakes` | phase2/exceptions.c:183-240 | a send by anybody, the interrupt handler included, wakes its receiver if and only if that is blocked and its a1 is 0 or the sender's public name |
| `Contexts.WhileAway` | phase2/exceptions.c:221-237 | while a process does not run its registers stay, except that it returns once from its RECEIVE |
| `Contexts.StepLeaves` | phase2/interrupts.c:148-154 | the running process leaves the processor only by the CPU timer, saved with its current registers, by a RECEIVE that finds nothing, or by death; after a trap that it survives it runs with the trap's registers |
| `Memory.StepWord` | phase2/exceptions.c:158-181 | a step leaves every word of memory alone that no process in a RECEIVE, and not this RECEIVE, has asked its payload for |
| `Origins.OriginKept` | phase1/pcb.c:40-74 | a live process keeps its parent, support structure and pid |
| `Reports.ServedAs` | phase2/ssi.c:26-50 | the SSI serves the timer's message as a tick and a device's message as that device's answer, in an existing queue |
| `Pool.PoolTotal` | phase1/msg.c:47-54 | free, pending and stranded structures are always fifty |
| `Pool.SendPool` | phase2/exceptions.c:196-240 | a send takes one structure if it queues, none if it hands over, and strands none |
| `Pool.ReceivePool` | phase2/exceptions.c:180-181 | delivery returns exactly the taken structure |
| `Pool.TerminatedPool` | phase2/utils.c:46-48 | termination strands exactly what was pending for the killed |
| `Soft.SchedulerVerdict` | phase2/scheduler.c:14-47 | with an exact count: halt, dispatch, wait and panic each happen exactly in their case |
| `Soft.LastOne` | phase2/scheduler.c:24-26 | process_count is 1 exactly if only the SSI is alive |
| `Soft.PurgeSoft` | phase2/utils.c:33-39 | termination keeps the count exact if and only if as many killed are marked and queued as are marked and blocked |
| `Soft.DoIoSoft` | phase2/ssi.c:146 | the SSI's mark keeps the count exact if and only if the requester is not blocked unmarked |
| `Soft.HandoverSoft` | phase2/exceptions.c:228-231 | waking a receiver keeps the count exact |
| `Soft.BlockSoft` | phase2/exceptions.c:145-152 | blocking keeps the count exact |
| `Answers.DeviceAnswer` | phase2/ssi.c:189-205 | a (sub)device's completion takes the head of exactly its queue and sends it, if it is alive, blocked or not, the status register (at a terminal the transmitter's if that is neither 1 nor 3, otherwise the receiver's), and nobody else anything; a head that awaits the SSI is woken with it and no other process or queue changes |
| `Answers.ReplyWakes` | phase2/ssi.c:204 | the SSI's reply to a process that awaits it is one wakeup and costs no message structure |
| `Answers.ClockWakesAll` | phase2/ssi.c:207-214 | a tick empties the queue and wakes all that await the SSI, in order of asking |
| `Answers.ClockAnswersAll` | phase2/ssi.c:207-214 | with enough structures every waiter that is alive, blocked or not, is sent exactly one answer, and the killed are passed over |
| `Answers.ClockDropsAll` | phase2/ssi.c:207-214 | with an empty pool the waiters are dropped without an answer |
| `Devices.CommandRoutes` | phase2/utils.c:84-98 | every register address of a device, and each of a terminal's two command addresses, names the right queue |
| `Devices.IrqFields` | phase2/interrupts.c:112-142 | the SSI reads back service 0, line and device, and at a terminal whose transmitter status is neither 1 nor 3 that status and the transmitting half, otherwise the receiver's, at other devices the status register |
| `Devices.PackUnpack` | phase2/ssi.c:27-37 | the four bytes of the 32-bit message survive packing |
| `Nucleus.Nucleus.Boot` | phase2/initial.c:40-89 | main leaves the state that runs start from |
| `Nucleus.Nucleus.FreeList` | phase1/pcb.c:81-88 | initPcbs and initMsgs leave entries n-1 to 0 |
| `Nucleus.Nucleus.AllocPcb` | phase1/pcb.c:37-74 | the first free entry, reset, with a new pid; nothing if there is none |
| `Nucleus.Nucleus.FreePcb` | phase1/pcb.c:22-28 | the entry becomes the first free one |
| `Nucleus.Nucleus.SearchPcb` | phase1/pcb.c:311-326 | true exactly if the entry is in the queue |
| `Nucleus.Nucleus.OutProcQ` | phase1/pcb.c:213-249 | the queue without the entry, order kept, and whether it was there |
| `Nucleus.Nucleus.PopMsg` | phase1/msg.c:112-140 | the loop finds what `PopMessage` defines |
| `Nucleus.Nucleus.IsValid` | phase1/pcb.c:333-344 | true exactly for the address of an entry that is not free |
| `Nucleus.Nucleus.SendMsg` | phase2/exceptions.c:196-240 | send_message is `SendMessage`, result and whole state |
| `Nucleus.Nucleus.WakeUp` | phase2/exceptions.c:226-233 | the hand-over is `Handover` |
| `Nucleus.Nucleus.DeliverMessage` | phase2/exceptions.c:158-181 | the payload is stored if an address was given, the structure goes back to the pool |
| `Nucleus.Nucleus.Send` | phase2/exceptions.c:86-113 | SEND is `SyscallSend`, with the fake SSI address, PARENT and invalid receivers |
| `Nucleus.Nucleus.Receive` | phase2/exceptions.c:114-133 | RECEIVE is `SyscallReceive` |
| `Nucleus.Nucleus.Schedule` | phase2/scheduler.c:14-47 | the scheduler is `Scheduler` |
| `Nucleus.Nucleus.Interrupts` | phase2/interrupts.c:18-55 | the loop over pending lines serves them in priority order, each once |
| `Nucleus.Nucleus.ServeOne` | phase2/interrupts.c:28-53 | one iteration serves the pending line of highest priority |
| `Nucleus.Nucleus.LowestLine` | phase2/interrupts.c:41-48 | the search finds the lowest pending line, so its PANIC is unreachable |
| `Nucleus.Nucleus.DeviceInterrupt` | phase2/interrupts.c:59-142 | the lowest pending device's message goes to the SSI; panic if there is none |
| `Nucleus.Nucleus.Plt` | phase2/interrupts.c:148-154 | the running process goes to the end of the ready queue with its current registers |
| `Nucleus.Nucleus.TerminateProgeny` | phase2/utils.c:42-44 | its loop over the first child |
| `Nucleus.Nucleus.Detach` | phase2/utils.c:20-39 | the process leaves its parent, the ready queue and all device queues, not the clock queue |
| `Nucleus.Nucleus.DropFromDevices` | phase2/utils.c:23-27 | all 48 queues lose the process, and the result says whether one had it |
| `Nucleus.Nucleus.OutChild` | phase1/pcb.c:295-307 | only the parent's list changes |
| `Nucleus.Nucleus.PassUp` | phase2/exceptions.c:269-282 | pass_up_or_die is `PassUpOrDie` |
| `Nucleus.Nucleus.Create` | phase2/ssi.c:115-129 | CREATEPROCESS is `CreateProcess` |
| `Nucleus.Nucleus.RequestIo` | phase2/ssi.c:143-157 | DOIO is `DoIo`: the requester moves to the end of the device's queue |
| `Nucleus.Nucleus.RequestClock` | phase2/ssi.c:168-171 | CLOCKWAIT appends to the clock queue |
| `Nucleus.Nucleus.AnswerDevice` | phase2/ssi.c:189-205 | the first waiter is answered, nobody if there is none |
| `Nucleus.Nucleus.AnswerClock` | phase2/ssi.c:207-214 | the loop is `AnswerWaitForClock` and ends |
| `Nucleus.Nucleus.BlockCurrent` | phase2/exceptions.c:145-152 | blockSys, up to its call of the scheduler, is `BlockSys` |
| `Nucleus.Nucleus.MarkRequester` | phase2/exceptions.c:211-214 | the sender of a DOIO or CLOCKWAIT request is flagged |
| `ListX.InsertBetween` | headers/listx.h:104-109 | the four links are set and the outer ones kept |
| `ListX.ListAdd` | headers/listx.h:119-121 | the ring of the list with the node in front |
| `ListX.ListAddTail` | headers/listx.h:131-133 | the ring of the list with the node at the end |
| `ListX.ListDel` | headers/listx.h:143-157 | the ring of the list without the node, whose own links stay |
| `ListX.RingEnds` | headers/listx.h:178-180 | the anchor points at itself exactly if the list is empty |
| `ProcQueues.KeptIsWithout` | phase1/pcb.c:233-249 | through the right link this is removal from the sequence |
| `ProcQueues.WrongLinkKeepsAll` | phase2/utils.c:28-29 | through the wrong link nothing is found or removed |
| `ProcQueues.SearchPcb` | phase1/pcb.c:311-326 | true exactly if a node of the entry is linked |
| `ProcQueues.InsertTail` | phase1/pcb.c:119-133 | the ring with the entry last |
| `ProcQueues.RemoveHead` | phase1/pcb.c:173-205 | the first entry, unlinked and linked with itself, and the ring of the others |
| `ProcQueues.ReinitQueued` | phase1/pcb.c:71 | re-initialising a node that heads a queue leaves no ring |
| `ProcQueues.RemoveStuckHead` | phase2/ssi.c:211-213 | on such a queue removal returns the same entry for ever |
| `ProcQueues.FindLinked` | phase1/msg.c:116-136 | the walk stops at the first message from the sender named, or at the first of all for 0 |
| `ProcQueues.PopLinked` | phase1/msg.c:112-140 | popMessage on the links is `PopMessage` on the inbox they stand for |
| `Pointers.InTableExact` | phase1/pcb.c:338-341 | the pointer test accepts exactly the start addresses of the fifty entries |
| `PagingRuns.StepOk` | phase3/vmSupport.c:66-137 | every step keeps the tables in agreement and does to each page what flat memory would |
| `PagingRuns.HandleOk` | phase3/vmSupport.c:66-137 | a completed handler maps the page in the chosen frame and changes nobody's memory |
| `PagingRuns.HandleDuplicate` | phase3/vmSupport.c:61-135 | if it was mapped elsewhere, the page falls back to its flash block |
| `PagingRuns.Overwritten` | phase3/vmSupport.c:106-125 | otherwise the other thread's page gets the first page's content |
| `PagingRuns.HandleOthers` | phase3/vmSupport.c:66-130 | a completed handler, duplicate or not, changes nobody else's page |
| `PagingRuns.Exec` | phase3/vmSupport.c:66-137 | the tables agree after every run |
| `PagingInv.FramesDistinct` | phase3/vmSupport.c:112-114 | two frames never hold the same page of a process |
| `PagingInv.SeekExact` | phase3/vmSupport.c:269-278 | the page's own entry if it has one, otherwise the first free one, none exactly if 32 other pages fill the table |
| `PagingInv.PageOfInjective` | phase3/vmSupport.c:254-265 | different pages of a process have different numbers |
| `PagingInv.ImageLimit` | phase3/vmSupport.c:254-265 | program and stack page numbers are disjoint if and only if the image has at most 31 pages |
| `PagingInv.StartUsed` | phase3/vmSupport.c:74-88 | unmapping the victim, with interrupts off, keeps tables, TLB and memory in agreement |
| `PagingInv.StartFree` | phase3/vmSupport.c:69-74 | so does taking a free frame |
| `PagingInv.WriteBackStep` | phase3/vmSupport.c:89-96 | writing back only what was mapped writable loses nothing |
| `PagingInv.VictimElsewhere` | phase3/vmSupport.c:91-95 | the block that is written belongs to no other frame |
| `PagingInv.LoadStep` | phase3/vmSupport.c:98-114 | loading the frame changes nobody's memory; the tables agree if and only if the saved EntryHi leads to the same entry |
| `PagingInv.InstallExact` | phase3/vmSupport.c:120-127 | mapping keeps the tables in agreement if and only if the saved EntryHi is still that of the fault |
| `PagingInv.InstallStep` | phase3/vmSupport.c:116-130 | then mapping the page changes nobody's memory and keeps the TLB coherent |
| `PagingInv.TlbCopies` | phase3/vmSupport.c:145-155 | unmapping and mapping bring no entry into the TLB or out of it and change only the page's own copy, the victim's to invalid, the new page's to the table's |
| `PagingInv.RefillStep` | phase2/exceptions.c:23-47 | a refill keeps the TLB equal to the page tables whatever it evicts |
| `PagingInv.RaiseStep` | phase2/exceptions.c:276-280 | another thread's fault changes only the saved state |
| `PagingInv.AccessFrame` | phase2/exceptions.c:36-45 | an access that the TLB allows reaches the frame that holds the page |
| `PagingInv.StoreStep` | phase3/vmSupport.c:123-125 | a store that the TLB allows keeps clean frames equal to their blocks |
| `PagingInv.StoreMem` | phase3/vmSupport.c:123-125 | a store changes the page it names and no other page of any process |
| `PagingInv.ExitStep` | phase3/vmSupport.c:210-222 | freeing a dead process's frames leaves the others' pages alone |
| `PagingInv.InitialOk` | phase3/vmSupport.c:224-233 | initially the tables agree and every page is its flash block |
| `Blocks.WritesVictim` | phase3/vmSupport.c:89-96 | a victim that was mapped writable goes to its page's block, k or 31 + k, of its own process, and no other block changes |
| `Blocks.LoadsBlock` | phase3/vmSupport.c:98-100 | a page is brought in from that block of its own process |
| `PagingRuns.PageOfIsBlock` | phase3/vmSupport.c:254-265 | the code's page number is k for the program page 0x80000 + k and 31 + k for the stack page 0xBFFFF - k |
| `Blocks.RunTexts` | phase3/vmSupport.c:100-104 | the text size of the first process is unknown until its first page is loaded and then what that announces; all others' are 0 |
| `Paging.LoBits` | phase3/vmSupport.c:123-125 | frame number, valid bit and dirty bit can be read back from the entry |
| `Pager.Pager.Init` | phase3/vmSupport.c:224-233 | the initial tables |
| `Pager.Pager.PassUpFault` | phase2/exceptions.c:276-280 | the saved state of the process is replaced |
| `Pager.Pager.FrameIndex` | phase3/vmSupport.c:157-170 | the first free frame, otherwise the next in turn |
| `Pager.Pager.UpdateTlbEntry` | phase3/vmSupport.c:145-155 | the TLB's copy is replaced if there is one |
| `Pager.Pager.SeekIndex` | phase3/vmSupport.c:269-278 | the loop is `Seek`, with -1 for a full table |
| `Pager.Pager.StartFault` | phase3/vmSupport.c:69-88 | choosing and unmapping is `Start` |
| `Pager.Pager.WriteVictim` | phase3/vmSupport.c:89-96 | write-back is `WriteBack` |
| `Pager.Pager.LoadFrame` | phase3/vmSupport.c:98-114 | loading is `Load` |
| `Pager.Pager.MapFrame` | phase3/vmSupport.c:116-130 | mapping is `Install` |
| `Pager.Pager.TlbHandler` | phase3/vmSupport.c:66-130 | an undisturbed handler is `Handle` for the saved EntryHi, and traps exactly if the page table is full |
| `Pager.Pager.RefillHandler` | phase2/exceptions.c:23-47 | the refill loop is `Refill` |
| `Pager.Pager.MarkFreePages` | phase3/vmSupport.c:210-222 | exactly the process's frames become free |
| `Replacement.RunRotates` | phase3/vmSupport.c:157-170 | over such a run fault k takes frame k mod 16 |
| `Replacement.NextInTurn` | phase3/vmSupport.c:157-170 | so fault n takes frame n mod 16, through the wrap-around of the index's initial -1 |
| `Mutex.StepInv` | phase3/vmSupport.c:24-41 | every step of the mutex and its clients keeps the protocol's invariant |
| `Mutex.ClientStep` | phase3/vmSupport.c:61-64 | so do the clients' sends, stray messages, traps and deaths |
| `Mutex.ServerInv` | phase3/vmSupport.c:27-40 | and the mutex's receives and answers |
| `Mutex.RunInv` | phase3/vmSupport.c:24-41 | the invariant holds after every run |
| `Mutex.HolderOnly` | phase3/vmSupport.c:35-38 | while the mutex is held nobody else's messages are read |
| `Mutex.ReadsBytes` | phase3/vmSupport.c:27-39 | at the first RECEIVE a message whose byte 0 is 1 leads to the grant, at the second a message of the holder whose byte 1 is 1 to the release, and every other is forgotten |
| `Mutex.StrayDiscarded` | phase3/vmSupport.c:30-31 | a V from somebody who holds nothing is forgotten |
| `Turns.QueueOverRun` | phase2/ssi.c:143-157 | over any run a device queue is in the order of the requests, and holds who asked and was neither answered nor killed since |
| `Turns.QueueStep` | phase2/ssi.c:151-157 | what each step does to each device queue |
| `Turns.ClockOverRun` | phase2/ssi.c:168-171 | over any run the clock queue is those who asked since the last tick, in order |
| `Turns.ClockStep` | phase2/ssi.c:168-171 | what each step does to the clock queue |
| `PagingCases.TrapLeavesStale` | phase3/vmSupport.c:106-110 | a full table that costs a frame in use leaves that frame stale and everything else in agreement |
| `MutexReuse.ReuseExact` | phase3/vmSupport.c:35-39 | reuse keeps the invariant of exclusion if and only if no V of the former occupant is pending behind a grant or being answered |
| `MutexReuse.Wider` | phase3/vmSupport.c:24-41 | the wider protocol permits everything that the strict one allows |
| `MutexReuse.ReuseClashes` | phase3/sysSupport.c:32-39 | in that situation, a continuation with two clients inside for every entry that is not clean |
| `MutexReuse.ReuseStarves` | phase3/vmSupport.c:35-38 | if the holder died without V, nobody ever enters again, not even the successor, until one traps |
| `MutexReuse.HolderReused` | phase3/vmSupport.c:35-38 | reusing the entry of a holder that died without V leads into that state |

## Left out

- Hardware and library calls (LDST, LDCXT, STCK, TLBP, TLBWR, LDIT, status and interrupt-enable registers): only their effect on the state; which TLB entries a refill evicts is arbitrary.
- Preemption inside an SSI service, between the calls that mask interrupts, other than a send in the middle of a termination (`Dying`): a service body is one step. Not modelled are, in particular, a sender with a stale pointer that wakes a new process between allocPcb and insertProcQ (phase2/ssi.c:117-125), which is then queued twice, and the updates of `process_count` and `softblock_count`, which are read and written with interrupts enabled (phase2/ssi.c:126, phase2/utils.c:31 and 39).
- Nucleus.Nucleus.Plt: does nothing when no process is running, where the code would dereference NULL; the model has no CPU-timer interrupt during WAIT, which holds only if the machine's bit numbering is the one that phase2/scheduler.c:35 intends.
- Mail.HandoverSeesLogged: memory is one map for all processes. The code stores the payload through the address space of whoever runs, so a woken U-process that gave a virtual address need not find it there.
- Acknowledging a device and writing its command register; transfers to flash are assumed to succeed, so the trap at phase3/vmSupport.c:206-207 is not modelled.
- Devices.CommAddToNumber: addresses outside the device registers, for which the code would index past its 48 queues, are not possible requests.
- The SSI's reply sends for create, terminate and the field readers: they are ordinary SEND steps of the running SSI. GETTIME, GETSUPPORTPTR and GETPROCESSID only read fields.
- The support structure's contents and free list (phase3/support.c): a process has a support structure or not. Saved exception states and contexts are not modelled.
- Registers other than a0, a1, a2 and pc, which are saved and loaded together with these; the initial registers of the SSI and the test process (phase2/initial.c:62-86), zero in the model.
- CPU-time accounting.
- ListX, ProcQueues: the children's ring is not modelled on the heap; the nucleus has each process's children as a sequence. The class `Nucleus` has its queues as sequences, which `ProcQueues` shows the links to implement.
- `removeChild`, which walks siblings through the wrong link and which nothing calls.
- Wrap-around of pids after 2^31 creations and of program counters.
- The pager's addresses outside program image and stack, and the values that `find_page_by_entryhi` gives them.
- PagingCases.StaleEvicted: nothing is proved about the steps between the trap and the eviction, and no run from the start loses a page this way.
- Pager: several processes of one address space are modelled as one owner of its pages, with one saved state; a handler of a process that exits while it holds the mutex is not resumed.
- `mark_free_pages` while that process's page is being written back: the code then addresses device -2, another device's registers; the model writes a block that belongs to nobody.
- Mutex: the mutex's and its clients' inboxes are reliable queues here; that the nucleus makes them so is `Theorems.ExactlyOnceInOrder`. Sends that fail for lack of a message structure are not modelled.
- Mutex.MutualExclusion: requires that a table entry is reused only after the mutex has dealt with its former occupant, which the order of grants needs; `MutexReuse.ExclusionWithReuse` has exclusion without the order for all reuse that is clean.
- MutexReuse.ReuseSafe: when the mutex has other clients to serve before or after the reused entry, only the invariant's condition (`MutexReuse.ReuseExact`) is proved; a dead client among them can stop the mutex before it does harm. A new occupant that sends a V out of turn while the mutex still serves the old one is not permitted.
- Replacement.FirstInFirstOut: runs without exits and without full page tables; an exit makes a frame free before its turn.
- Printing services, the SST loop, process start-up, memory layout, memcpy and the test programs.

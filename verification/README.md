# Quest kernel and libc: a Dafny model

Quest is a small x86 operating system whose scheduler gives real-time
guarantees through virtual CPUs (VCPUs). This project models its hardest
imperative code and proves what that code is for: budget conservation and
supply bounds of the VCPU servers, the two-level scheduler and its queues, the
libc and kernel allocators, CRC-32, module loading, address-space cloning, the
debugger's packet protocol and the kernel's small concurrent structures.

`dafny verify dfyconfig.toml` checks everything.

## How the model is laid out

| modules | what they hold |
|---|---|
| SporadicServer, ServerSupply, ReplQueue, MainVcpu | the MAIN VCPU: hooks on values, what they mean in time, the array-backed replenishment queue, the VCPU object |
| IoServer, VcpuHooks | the I/O VCPU and its bandwidth bound; the hook table and the timer arithmetic |
| Links, TaskQueues, Sleep, WaitQueues, SchedModel, Homes, TaskFlow, Scheduler | linked lists by index, task queues sharing one `next` field, the sleep queue, which VCPU a task belongs to, where tasks go, schedule and wakeup |
| SchedRun, SupplyRun, TimerRun, BandwidthRun, LostTimer | runs of the scheduler's operations: no task is lost, the supply bound of every MAIN VCPU and what the timer adds to it, the bandwidth bound of every I/O VCPU, a run that loses the timer's delay |
| HeapTiles, LibcHeap | malloc and free against a row of tiles |
| HeaderChain, Pow2Blocks, Pow2Arena, Pow2 | the kernel's power-of-two allocator |
| CrcBits, CrcTables, Crc32, CrcAlgebra, CrcBurst | CRC-32 by bits, by table and by word; its laws; bit reversal; bursts of errors |
| ModuleLoader | which modules load, and in what order |
| Logger, Semaphore, Circular | step machines for the log ring, semaphores and the circular buffer |
| Frames, KernelMap, PageClone | the frame bitmap, the kernel page table, cloning an address space |
| GdbPacket | packets of the GDB remote protocol and memory in hexadecimal |

Pointers into static arrays are indices. Clock readings, the inputs of a serial
line and the addresses that mapping new pages would yield are parameters. Code
that updates things in place is a class or a method with loops, proved against
a function on values; what the source promises is then proved about that
function, over every run. Shared-memory code is a step machine with one step
for each access or each stretch under a lock.

## What the proofs found

- budget_check merges the first two replenishments when `t + b` reaches the
  next one, without subtracting what is already used.
  `ServerSupply.BudgetNeutralIff` says exactly when the hook keeps the supply in
  time, and `ServerSupply.PrematureMergeExample` is a run from vcpu_init in which
  it does not. The damage is bounded: `ServerSupply.ConsumptionBounded` holds for
  every run, the time by which slices overran being all that is added.
  `SupplyRun.SupplyBounded` says the same of runs of the whole scheduler, and
  `TimerRun.OverrunBounded` what the slices can overrun by when they end promptly.
- An overrun can push the head behind other replenishments, and then the next
  event reported is not the earliest: `SporadicServer.EarliestIff` says exactly
  when, `SporadicServer.EarlierEventMissed` is a run from vcpu_init.
- A server that was runnable but not picked catches up afterwards, so its bound
  does not hold in every window. `ServerSupply.WindowIff` says exactly when it
  holds from the present on, for a server with one untouched replenishment;
  `ServerSupply.StarvedReached` is a run after which it does not. It always holds
  when counted from the oldest replenishment queued (`ServerSupply.WindowBounded`).
- vcpu_schedule loses its timer delay when an I/O VCPU of the chosen period,
  queued but not picked, has a replenishment due at this very tick: the
  distance 0 reads as "no delay yet". `SchedModel.TimerExact` gives the exact
  condition, `SchedModel.OnlyEqualPeriodDue` who can cause it,
  `SchedModel.DueEventErases` the effect and `LostTimer.DueEventReached` a run from
  boot.
- The timer count can also fall short when its arithmetic overflows:
  `VcpuHooks.CountNotEarly` says exactly when, `VcpuHooks.CountOverflows` gives
  an input.
- The size macro of malloc multiplies before it divides, so it adds 7 instead
  of aligning, and `size_t` is an `int` there: the block holds its request iff
  `size + 15 < 2^28` (`LibcHeap.AllocBytesHold`). Larger and negative requests
  succeed with too few bytes, with none or with fewer than none
  (`LibcHeap.OverflowingRequest`); `LibcHeap.Heap.Malloc` leaves a heap in which
  the block is live iff the length it computes is at least 4, the size word.
  `LibcHeap.SizeWordSpills` and `LibcHeap.EmptyGrab` show what happens otherwise.
- pow2_alloc returns a 64 KiB block for any larger request
  (`Pow2Blocks.ComputeIndexLeast`).
- The search bound of alloc_phys_frames and of the two page mappers wraps when
  more than one entry over the limit is asked for (`Frames.BoundExact`); the
  search then reads behind its table iff all from some place on is free and no
  window fits (`Frames.PhysicalMemory.AllocFrames`, `Frames.OversizedRunsOff`).
- clone_page_table does not check the allocation of a page's frame. When frames
  run out it still succeeds, with the remaining pages mapped to the last frame
  of the address space: the clone is a copy iff there were as many free frames
  as it needs (`PageClone.CloneTranslates`, `PageClone.ShortClone`). When a clone
  is given up, the frames of the tables and pages already copied are lost, and
  `PageClone.Machine.CloneDirectory` says how many.
- The test for a trailing "___" in a dependency string reads bytes before the
  string when the first name is shorter than three characters
  (`ModuleLoader.SubtreeExact`, `ModuleLoader.StrayPrefix`).
- getpacket takes a payload of fewer than two characters for a numbered packet
  when an earlier packet left a colon in the buffer (`GdbPacket.RoundTrip`), and
  then returns the earlier packet again (`GdbPacket.StaleColon`). It drops
  payloads of 399 characters or more without an answer
  (`GdbPacket.LongPacketIgnored`).
- A memory fault in mem2hex or hex2mem leaves the fault routine installed
  (`GdbPacket.MemToHex`, `GdbPacket.HexToMem`).
- A semaphore keeps its invariant through a run iff every call is allowed in the
  state it meets (`Semaphore.RunExact`). Waiting for k is safe in all states iff
  k is not negative (`Semaphore.WaitSafeIff`); below 0 it can strand a waiter
  (`Semaphore.NegativeWaitLosesWakeup`).
- logger_thread takes a logged NUL for an empty ring and does not print it
  (`Logger.EveryRun`).
- set_iovcpu changes the binding of a task that may be queued on its old VCPU, as
  in kernel/drivers/usb/umsc.c:328-330. If it is woken before it has run there,
  the append to the new runqueue cuts off all tasks behind it on the old one
  (`TaskQueues.AppendTears`); and if it is woken while it still runs, two
  VCPUs can run it (`Homes.UnsettledTwice`). `Scheduler.Sched.VcpuWakeup` asks that neither is so.
- vcpu_in_runqueue answers yes for task 0 (`TaskQueues.Tasks.InQueue`).

## Model

| member | source | states |
|---|---|---|
| SporadicServer.InsertKeeps | kernel/sched/vcpu.c:548-571 | insertion adds exactly the new replenishment, in amount and as a multiset |
| SporadicServer.InsertPositive | kernel/sched/vcpu.c:548-571 | insertion keeps all amounts and times positive |
| SporadicServer.InsertSorted | kernel/sched/vcpu.c:548-571 | insertion keeps the queue in time order |
| SporadicServer.MergeAll | kernel/sched/vcpu.c:842-857 | repl_merge, which is defined but never called: merging to the end keeps the total and leaves a gap behind the head |
| SporadicServer.Exhaust | kernel/sched/vcpu.c:862-869 | the loop ends with usage below the head, conserving size, total and positivity |
| SporadicServer.Coalesce | kernel/sched/vcpu.c:942-958 | the unblock loop conserves the total, keeps the tail and stops only at size 1 or at a later entry |
| SporadicServer.FirstAfter | kernel/sched/vcpu.c:830-839 | a time still to come of some replenishment, 0 iff there is none |
| SporadicServer.FirstIsEarliest | kernel/sched/vcpu.c:830-839 | in a queue in time order it is the earliest such time |
| SporadicServer.EarliestIff | kernel/sched/vcpu.c:830-839 | with the tail in time order, which every run keeps, it is the earliest iff no entry still to come is earlier than a head still to come |
| SporadicServer.EarlierEventMissed | kernel/sched/vcpu.c:830-884 | a run from vcpu_init that ends a timeslice so that it is not |
| SporadicServer.OverrunKeeps | kernel/sched/vcpu.c:870-884 | pushing the head back and merging once conserves the total and keeps usage below the head |
| SporadicServer.BudgetKeeps | kernel/sched/vcpu.c:859-892 | budget_check re-establishes the invariant from any usage |
| SporadicServer.SplitKeeps | kernel/sched/vcpu.c:894-912 | split_check keeps the invariant, full queue or not |
| SporadicServer.UnblockKeeps | kernel/sched/vcpu.c:942-962 | unblock_check keeps the invariant |
| SporadicServer.StepKeeps | kernel/sched/vcpu.c:914-970 | every end of timeslice and every unblock keeps: total C, amounts > 0, 1 to MAX_REPL entries, usage below the head, the entries behind the head in time order |
| SporadicServer.EveryRunConserves | kernel/sched/vcpu.c:604-611 | the invariant and the total C hold after every run |
| SporadicServer.RunFromInit | kernel/sched/vcpu.c:1137-1192 | the same from the state vcpu_init leaves |
| ServerSupply.MergePreservesWork | kernel/sched/vcpu.c:842-857 | one merge leaves the work a backlogged server can do by any time unchanged |
| ServerSupply.MergeAllPreservesWork | kernel/sched/vcpu.c:842-857 | so does the whole merge loop |
| ServerSupply.MergeNeutralIff | kernel/sched/vcpu.c:870-884 | with part of the head used, a merge is neutral iff the next entry is not later than the end of what remains |
| ServerSupply.OverrunNeutralIff | kernel/sched/vcpu.c:870-884 | pushing the head back and merging preserves work iff the merge is not across a gap |
| ServerSupply.BudgetNeutralIff | kernel/sched/vcpu.c:859-892 | budget_check preserves work iff its merge is not across a gap |
| ServerSupply.PrematureMergeExample | kernel/sched/vcpu.c:859-892 | a run from vcpu_init that ends in a merge of budget_check across a gap: two units by a time when one is supplied |
| ServerSupply.CoalescePreservesWork | kernel/sched/vcpu.c:948-957 | the unblock loop leaves the work function unchanged |
| ServerSupply.UnblockPreservesWork | kernel/sched/vcpu.c:942-962 | unblocking leaves the work that can be done by any time from now on unchanged |
| ServerSupply.UnblockLeavesGap | kernel/sched/vcpu.c:948-957 | every entry left lies beyond the end of what remains of the head |
| ServerSupply.ServeWithin | kernel/sched/vcpu.c:914-940 | for C at most T + 1, a slice within what the head has available does not raise time used plus uses still pending |
| ServerSupply.ServeBeyond | kernel/sched/vcpu.c:859-892 | likewise a slice beyond it raises them by at most the overrun, merges across gaps included |
| ServerSupply.BlockPending | kernel/sched/vcpu.c:894-912 | splitting the head when the server blocks does not raise them |
| ServerSupply.ResumePending | kernel/sched/vcpu.c:942-970 | nor does unblocking |
| ServerSupply.MovePending | kernel/sched/vcpu.c:859-970 | for C at most T + 1 no hook raises them by more than the overrun |
| ServerSupply.PendingIff | kernel/sched/vcpu.c:859-970 | which is so in all runs of servers with budget C and period T iff C is at most T + 1 |
| ServerSupply.OverIs | kernel/sched/vcpu.c:914-940 | with the clock read when the slice starts, the overrun counted is what the slice exceeds the capacity by |
| ServerSupply.OverAtMost | kernel/sched/vcpu.c:914-940 | it is at most what the slice exceeds the capacity read by, or the time it took to read it |
| ServerSupply.ConsumptionBounded | kernel/sched/vcpu.c:859-970 | over every run, slices of any length, the time consumed is at most the supply of a periodic server with budget C and period T plus the time slices overran |
| ServerSupply.BoundAttained | kernel/sched/vcpu.c:859-892 | for every C at most T the bound is attained, by one slice of any length from C to T |
| ServerSupply.WindowBounded | kernel/sched/vcpu.c:859-970 | between any two states of a run, for any C and T, C for every period begun since the oldest replenishment queued, plus the overrun |
| ServerSupply.ResumeSince | kernel/sched/vcpu.c:942-962 | after an unblocking that found budget that is since then |
| ServerSupply.WindowIff | kernel/sched/vcpu.c:859-970 | counted from the present, with one replenishment and none of it used, the bound holds for all continuations iff the replenishment is not due before the present, or the budget is a whole period and no slice can have begun earlier |
| ServerSupply.StarvedReached | kernel/sched/vcpu.c:859-892 | a run from vcpu_init, for every C below T, after which it does not hold |
| ReplQueue.Queue.constructor | kernel/sched/vcpu.c:1149-1149 | an empty queue: all slots unlinked |
| ReplQueue.Queue.Pop | kernel/sched/vcpu.c:536-546 | removes the head and zeroes its slot; nothing on an empty queue |
| ReplQueue.Queue.FreeSlot | kernel/sched/vcpu.c:554-560 | a queue that is not full has a slot with time 0 |
| ReplQueue.Queue.InsertionPoint | kernel/sched/vcpu.c:561-564 | the link to change is the one in front of the first entry that is not earlier |
| ReplQueue.Queue.Add | kernel/sched/vcpu.c:548-571 | refines ordered insertion, dropping the addition when full |
| ReplQueue.Queue.FirstAfter | kernel/sched/vcpu.c:830-839 | the walk over the linked slots refines the next event |
| MainVcpu.Vcpu.constructor | kernel/sched/vcpu.c:1137-1192 | one replenishment of C, due at the start |
| MainVcpu.Vcpu.Capacity | kernel/sched/vcpu.c:812-821 | refines the capacity function |
| MainVcpu.Vcpu.UpdateReplenishments | kernel/sched/vcpu.c:823-828 | sets the budget field to the capacity, at least 0 |
| MainVcpu.Vcpu.ExhaustLoop | kernel/sched/vcpu.c:862-869 | the array-backed loop refines Exhaust |
| MainVcpu.Vcpu.BudgetCheck | kernel/sched/vcpu.c:859-892 | refines the budget check on values |
| MainVcpu.Vcpu.SplitCheck | kernel/sched/vcpu.c:894-912 | refines the split on values, full queue included |
| MainVcpu.Vcpu.EndTimeslice | kernel/sched/vcpu.c:914-940 | refines the end of a timeslice and keeps the invariant |
| MainVcpu.Vcpu.Unblock | kernel/sched/vcpu.c:942-970 | refines unblocking and keeps the invariant |
| IoServer.IoVcpu.UpdateReplenishments | kernel/sched/vcpu.c:979-986 | grants the pending budget once its time has come |
| IoServer.IoVcpu.EndSlice | kernel/sched/vcpu.c:994-1030 | refines the charge: eligibility moves by usage times Uden over Unum |
| IoServer.IoVcpu.UnblockHook | kernel/sched/vcpu.c:1032-1053 | refines the unblock hook |
| IoServer.StretchExact | kernel/sched/vcpu.c:1013-1013 | eligibility moves by the service over the utilisation, rounded down |
| IoServer.ShareExact | kernel/sched/vcpu.c:1017-1017 | the budget of a period is the utilisation's part of it, rounded down |
| IoServer.ChargeBound | kernel/sched/vcpu.c:1010-1013 | one charge keeps the bandwidth bound, at the price of one tick of rounding |
| IoServer.StepSound | kernel/sched/vcpu.c:979-1065 | every refresh, slice, unblock and inherited period keeps the bound and its invariant |
| IoServer.GrantAfterEligibility | kernel/sched/vcpu.c:979-986 | budget is granted only at or after the eligibility time, with nothing uncharged |
| IoServer.StepCapped | kernel/sched/vcpu.c:979-1065 | no step grants or promises more than the longest period's budget |
| IoServer.RunCapped | kernel/sched/vcpu.c:979-1065 | over every run no budget exceeds Unum/Uden of the longest period inherited |
| IoServer.FirstResume | kernel/sched/vcpu.c:1032-1053 | a VCPU fresh from boot, whatever period it has inherited, enters the invariant with its first job |
| IoServer.BandwidthBound | kernel/sched/vcpu.c:979-1065 | over every run, charged time is at most Unum/Uden of the eligibility elapsed plus a tick for each charge, and likewise of real time at every grant |
| IoServer.RoundingExample | kernel/sched/vcpu.c:1010-1013 | the tick for each charge cannot be dropped |
| VcpuHooks.EndSliceSound | kernel/sched/vcpu.c:914-1030 | the end-of-slice hook of either kind keeps its server sound and its period; for an I/O VCPU no replenishment is pending later than its eligibility time |
| VcpuHooks.UnblockSound | kernel/sched/vcpu.c:942-1053 | so does the unblock hook |
| VcpuHooks.ShortenIsLeast | kernel/sched/vcpu.c:693-706 | the loop finds a positive delay no longer than budget or any event iff no event has distance 0 |
| VcpuHooks.EventDue | kernel/sched/vcpu.c:830-839 | only an unrefreshed I/O VCPU reports an event at this very tick |
| VcpuHooks.CountNotLate | kernel/sched/vcpu.c:708-725 | the timer count never outlasts the delay, up to the one-tick minimum |
| VcpuHooks.CountNotEarly | kernel/sched/vcpu.c:708-725 | nor falls short of it by a whole tick, unless one quantum is less, iff nothing overflows, or what is left still covers the quantum, or there is at most one tick to count |
| VcpuHooks.CountOverflows | kernel/sched/vcpu.c:708-725 | a delay of 2^32 + 5 ticks is counted as 5 of a quantum of 10 |
| TaskQueues.WithoutKeeps | kernel/sched/vcpu.c:125-136 | removal takes out one occurrence and nothing else |
| TaskQueues.QueueAppended | kernel/sched/sched.c:39-62 | appending keeps all queues acyclic, duplicate-free and disjoint |
| TaskQueues.AppendTears | kernel/sched/sched.c:39-62 | appending a task that is still on another queue cuts off all tasks behind it there |
| TaskQueues.Detach | kernel/sched/sleep.c:93-127 | a task may leave a queue's account while its links still run through it |
| TaskQueues.Reattach | kernel/sched/sleep.c:93-127 | redirecting the one stale link makes the queue whole again |
| TaskQueues.Tasks.QueueAppend | kernel/sched/sched.c:39-62 | appends once, touching no other queue |
| TaskQueues.Tasks.QueueRemoveHead | kernel/sched/sched.c:64-80 | takes the head, 0 when empty |
| TaskQueues.Tasks.InQueue | kernel/sched/vcpu.c:113-123 | membership, with task 0 counted as a member |
| TaskQueues.Tasks.RemoveFrom | kernel/sched/vcpu.c:125-136 | unlinks the task and nothing else |
| Sleep.Partition | kernel/sched/sleep.c:93-127 | every sleeper is either due or stays, none is both |
| Sleep.ExaminedKept | kernel/sched/sleep.c:119-125 | passing over an unexpired sleeper keeps the account of the pass |
| Sleep.ExaminedWoken | kernel/sched/sleep.c:108-118 | waking an expired one extends it |
| WaitQueues.DrainedStep | kernel/sched/sched.c:82-89 | waking the head of a wait queue appends it to its own runqueue, in order |
| SchedModel.ScanBest | kernel/sched/vcpu.c:652-664 | the scan picks the first queued VCPU of least period among those with budget, or none has any |
| SchedModel.ScannedFresh | kernel/sched/vcpu.c:652-664 | the pick and every queued VCPU of smaller period were refreshed |
| SchedModel.ScanChooses | kernel/sched/vcpu.c:652-664 | both together, for the whole queue |
| SchedModel.DispatchKeeps | kernel/sched/vcpu.c:666-676 | dispatching keeps lists and flags, whether or not the runqueue is left empty |
| SchedModel.SwitchKeeps | kernel/sched/vcpu.c:727-754 | switching keeps running iff current |
| SchedModel.WokenKeeps | kernel/sched/vcpu.c:783-792 | waking keeps runnable iff queued iff tasks to run |
| SchedModel.TimerExact | kernel/sched/vcpu.c:693-706 | the delay is no longer than the budget or any reported event iff no I/O VCPU that matters is due this tick |
| SchedModel.OnlyEqualPeriodDue | kernel/sched/vcpu.c:652-706 | after every selection, only an unpicked I/O VCPU of exactly the chosen period can be |
| SchedModel.DueEventErases | kernel/sched/vcpu.c:693-725 | such an event erases the budget and all events queued before it; coming last it sets the timer to a whole quantum |
| LostTimer.DueEventReached | kernel/sched/vcpu.c:617-806 | a run of eight operations from boot, after which the pick has three ticks of budget and the timer is set to a whole quantum |
| SchedModel.QueueAfterIs | kernel/sched/vcpu.c:666-676 | the processor's queue after the dispatch: the pick leaves it with its last task, all others keep their order |
| SchedModel.InheritedKeeps | kernel/sched/vcpu.c:1055-1065 | taking over a job's period keeps lists and flags |
| SchedModel.NothingLost | kernel/sched/vcpu.c:138-158 | choosing a task moves that one task and leaves every queue otherwise as it was |
| Homes.RunnersDiffer | kernel/sched/vcpu.c:617-761 | two processors run different tasks, tasks bound to another VCPU meanwhile included |
| Homes.UnsettledTwice | kernel/sched/vcpu.c:138-158 | a task woken on another VCPU while it runs is run by both once that one is dispatched |
| Homes.DispatchHomes | kernel/sched/vcpu.c:138-158 | dispatching keeps every queued and running task with the VCPU it was woken on |
| Homes.TakenOnNone | kernel/sched/vcpu.c:138-158 | the dispatched task is on no queue |
| Homes.WokenHomes | kernel/sched/vcpu.c:763-806 | so does waking a task on the VCPU it is bound to, if that is the same or the task is neither queued nor running elsewhere |
| TaskFlow.TookMoves | kernel/sched/vcpu.c:138-158 | dispatching takes exactly the task that is to run off the queues |
| TaskFlow.ExaminedMoves | kernel/sched/sleep.c:93-127 | a pass over the sleep queue loses and invents no task |
| TaskFlow.DrainedMoves | kernel/sched/sched.c:82-89 | nor does emptying a wait queue |
| TaskFlow.NoTaskLost | kernel/sched/vcpu.c:617-806 | over every sequence of puts and runs a task is on a queue iff it was put on one after it last ran |
| Scheduler.Sched.constructor | kernel/sched/vcpu.c:1137-1192 | boot: every VCPU of the table on its processor, neither runnable nor running; no task queued or bound, nothing current |
| Scheduler.Sched.Pick | kernel/sched/vcpu.c:652-664 | the pointer loop refines the scan |
| Scheduler.Sched.Delay | kernel/sched/vcpu.c:693-706 | the pointer loop refines the shortening of the delay |
| Scheduler.Sched.InternalSchedule | kernel/sched/vcpu.c:138-158 | keeps the task of an unexpired quantum if it is runnable, else takes the next in turn |
| Scheduler.Sched.Dispatch | kernel/sched/vcpu.c:666-676 | the VCPU gets a task from its own runqueue and leaves the queue iff that was its last |
| Scheduler.Sched.EndCurrent | kernel/sched/vcpu.c:635-650 | charges the current VCPU and keeps every invariant |
| Scheduler.Sched.Select | kernel/sched/vcpu.c:652-676 | picks the choice of the scan and dispatches; the whole table and the processor's queue afterwards, VCPUs not refreshed included |
| Scheduler.Sched.Switch | kernel/sched/vcpu.c:727-754 | makes the pick current |
| Scheduler.Sched.VcpuSchedule | kernel/sched/vcpu.c:617-761 | the whole of vcpu_schedule: who runs, which task, which timer count, the whole table and the queues in their order afterwards; the task is taken off all queues and no other; all invariants kept; one step of a scheduler run |
| Scheduler.Sched.OneProcessorEach | kernel/sched/vcpu.c:617-761 | in every valid state no task runs on two processors |
| Scheduler.Sched.Bind | kernel/sched/vcpu.c:768-780 | a bound task stays; an unbound one goes to the next MAIN VCPU round the table |
| Scheduler.Sched.Enqueue | kernel/sched/vcpu.c:188-199 | appends a VCPU unless it is queued |
| Scheduler.Sched.WakeVcpu | kernel/sched/vcpu.c:785-805 | appends the VCPU to its processor's queue unless it is there, unblocks and refreshes it, and reports preemption |
| Scheduler.Sched.VcpuWakeup | kernel/sched/vcpu.c:763-806 | the whole of vcpu_wakeup: the task is on the runqueue of its VCPU once and the VCPU at the end of its queue, no other task moves, no other VCPU changes, all invariants kept; one step of a scheduler run |
| Scheduler.Sched.SetIovcpu | kernel/sched/vcpu.c:1111-1120 | changes the binding of any task, queued or running or not, and nothing else; one step of a scheduler run |
| Scheduler.Sched.JobWakeup | kernel/sched/vcpu.c:1055-1065 | an I/O VCPU takes over the job's period unless it is busy with a shorter one, then the task is woken; one step of a scheduler run |
| Scheduler.Sched.SchedUsleep | kernel/sched/sleep.c:54-75 | records the wake time and queues the sleeper; one step of a scheduler run |
| Scheduler.Sched.WakeSleeper | kernel/sched/sleep.c:108-118 | wakes one expired sleeper although its link is overwritten |
| Scheduler.Sched.SleepRound | kernel/sched/sleep.c:108-125 | one round of the loop examines one sleeper and finds the next, woken or not |
| Scheduler.Sched.ProcessSleepqueue | kernel/sched/sleep.c:93-127 | leaves exactly the unexpired sleepers in order, and binds and appends the expired ones to their runqueues in sleep order; no task is lost; one step of a scheduler run |
| Scheduler.Sched.WakeupQueue | kernel/sched/sched.c:82-89 | empties a wait queue into the runqueues, in order; no task is lost; one step of a scheduler run |
| SchedRun.StepMoves | kernel/sched/vcpu.c:617-806 | every operation of the scheduler puts tasks on queues, or takes the one that runs off them, and moves no other |
| SchedRun.RunLosesNoTask | kernel/sched/vcpu.c:617-806 | over every run of schedule, wakeup, sleep, the two wakeup loops, rebinding and job wakeup a task is on a queue iff it was put on one after it last ran |
| SupplyRun.ScheduledHere | kernel/sched/vcpu.c:617-761 | what vcpu_schedule does to a VCPU of its processor: ends its slice if it was running, refreshes it at most if it is queued, and runs it only if the refresh found budget |
| SupplyRun.StepTracks | kernel/sched/vcpu.c:617-806 | every operation makes on the ledger of a MAIN VCPU only moves that the ledger grants: the slice that ended, from the time its processor was last scheduled and with the reading of its pick, or wakeups |
| SupplyRun.SupplyBounded | kernel/sched/vcpu.c:617-806 | over every run of the scheduler, on any number of processors, the time charged to a MAIN VCPU is at most the supply of a periodic server with its budget and period plus, for each of its slices in that run, what it exceeds the capacity read at its pick by, or the time that took |
| TimerRun.PickBudget | kernel/sched/vcpu.c:652-692 | the budget that the timer is programmed for is the capacity that the ledger is granted |
| TimerRun.PickHolds | kernel/sched/vcpu.c:617-806 | while a VCPU runs, its server is the one that the last scheduling of its processor left when it was picked |
| TimerRun.OverrunBounded | kernel/sched/vcpu.c:617-806 | over every run in which its slices end within a latency of the counts programmed for them, with no event due at the tick of a pick, that is at most a tick of the timer, the latency and the reading time for each slice |
| BandwidthRun.StepHolds | kernel/sched/vcpu.c:617-806 | every operation makes on the ledger of an I/O VCPU only moves that the ledger allows, the slice that ended first, and counts its time and its charge |
| BandwidthRun.BandwidthHeld | kernel/sched/vcpu.c:617-1065 | over every run of the scheduler, inherited periods included, the time charged to an I/O VCPU is at most Unum/Uden of the eligibility elapsed since its first wakeup plus a tick for each slice that was charged, and of real time at every grant |
| HeapTiles.Covered | libc/src/stdio.c:194-214 | every byte of the arena is in a tile |
| HeapTiles.Apart | libc/src/stdio.c:194-214 | no two tiles share a byte |
| HeapTiles.FreesSeparated | libc/src/stdio.c:264-330 | the free list is strictly ordered with no two entries adjacent |
| HeapTiles.FreesAtMostLives | libc/src/stdio.c:264-330 | at most one more free entry than live blocks |
| HeapTiles.CarveTiling | libc/src/stdio.c:217-249 | allocation keeps the tiling |
| HeapTiles.CarveFrees | libc/src/stdio.c:217-249 | and changes the free list as malloc does |
| HeapTiles.InsertMergeJoins | libc/src/stdio.c:264-330 | inserting and merging twice is joining with both neighbours |
| HeapTiles.ReleaseFrees | libc/src/stdio.c:264-330 | releasing a tile changes the free list as free does |
| HeapTiles.ReleaseTiling | libc/src/stdio.c:264-330 | and keeps the tiling |
| HeapTiles.ReleaseCoalesced | libc/src/stdio.c:307-330 | and leaves no two free neighbours |
| HeapTiles.EveryRun | libc/src/stdio.c:194-330 | all of it after any sequence of allocations and releases |
| LibcHeap.AllocBytesHold | libc/src/stdio.c:28-30 | a block holds the request iff size + 15 < 2^28, for every int |
| LibcHeap.BlockLength | libc/src/stdio.c:217-233 | the length looked for is size + 15 read as 29 bits with sign |
| LibcHeap.OverflowingRequest | libc/src/stdio.c:217-233 | requests of 2^29, 2^29 - 15 and 2^28 bytes get 15, none and fewer than none |
| LibcHeap.SizeWordSpills | libc/src/stdio.c:231-234 | the size word of a block of 1 to 3 bytes reaches into another tile |
| LibcHeap.EmptyGrab | libc/src/stdio.c:231-239 | a block of no bytes leaves the free list as it was; of fewer, it puts bytes in front of the entry on the list |
| LibcHeap.Records.constructor | libc/src/stdio.c:194-214 | one record for the arena, 127 spare |
| LibcHeap.Records.DelRecord | libc/src/stdio.c:252-261 | moves a record to the spare list; 128 records in all |
| LibcHeap.Records.Insert | libc/src/stdio.c:280-304 | takes a spare record and links it in |
| LibcHeap.Records.MergeRecords | libc/src/stdio.c:307-330 | refines the two merges |
| LibcHeap.SpareRecordLeft | libc/src/stdio.c:272-276 | at most 126 live blocks leave a spare record |
| LibcHeap.Heap.FirstFit | libc/src/stdio.c:225-246 | the first entry large enough, or none is |
| LibcHeap.Heap.Malloc | libc/src/stdio.c:217-249 | for every int: takes the computed length from the first entry that has it, or changes nothing; the heap stays valid with the block live iff that length is at least 4 |
| LibcHeap.Heap.FindPlace | libc/src/stdio.c:285-304 | the search stops at the last record below the block |
| LibcHeap.Heap.Free | libc/src/stdio.c:264-304 | releases the tile; exits iff all 128 records are on the free list |
| HeaderChain.Chain.Push | kernel/mem/pow2.c:62-90 | a chain of header pages refines one stack: push |
| HeaderChain.Chain.Pop | kernel/mem/pow2.c:112-141 | and pop; only the first page is ever empty, all but the last are full |
| HeaderChain.Chain.IsEmpty | kernel/mem/pow2.c:92-98 | an empty first page means an empty chain |
| Pow2Blocks.ComputeIndexLeast | kernel/mem/pow2.c:178-192 | the least index whose block holds the request; it holds it iff the request is at most 64 KiB |
| Pow2Blocks.DescribeDecodes | kernel/mem/pow2.c:145-176 | a descriptor decodes to its pointer and index |
| Pow2Blocks.DescriptorBits | kernel/mem/pow2.c:145-176 | the bit operations do the same |
| Pow2Arena.BlocksApart | kernel/mem/pow2.c:92-142 | two blocks share no byte |
| Pow2Arena.BytesCovered | kernel/mem/pow2.c:92-142 | every byte of every chunk is in a block |
| Pow2Arena.BlocksOnce | kernel/mem/pow2.c:92-142 | no block is accounted for twice |
| Pow2.UsedTable.Insert | kernel/mem/pow2.c:145-160 | appends the descriptor, growing the table when full |
| Pow2.UsedTable.Remove | kernel/mem/pow2.c:162-176 | removes the pointer's descriptor, or changes nothing |
| Pow2.Allocator.constructor | kernel/mem/pow2.c:217-230 | starts with no chunk |
| Pow2.Allocator.AddFreeBlock | kernel/mem/pow2.c:62-90 | the block becomes free, on top of its stack |
| Pow2.Allocator.GetFreeBlock | kernel/mem/pow2.c:92-142 | takes the top of the stack, or the upper half of a larger block, or a new chunk |
| Pow2.Allocator.Alloc | kernel/mem/pow2.c:194-204 | a block of the least sufficient size becomes used; free and used blocks still tile the chunks |
| Pow2.Allocator.Free | kernel/mem/pow2.c:206-215 | a used block becomes free; an unknown pointer changes nothing |
| CrcBits.StepLeSplit | kernel/util/crc32.c:258-262 | eight bit steps are a lookup of the low byte and a shift |
| CrcBits.StepBeSplit | kernel/util/crc32.c:355-361 | the same from the top byte |
| CrcBits.ReverseStep | kernel/util/crc32.c:241-250 | bit reversal exchanges the two bit orders |
| CrcTables.TableLeIsStep | kernel/util/crc32.c:88-154 | every entry of the little-endian table is eight bit steps of its index |
| CrcTables.TableBeIsStep | kernel/util/crc32.c:156-221 | every entry of the big-endian table likewise |
| CrcTables.TableRevIsReversal | kernel/util/bitrev.c:29-62 | every entry of the reversal table is the reversal of its index |
| Crc32.StepLookup | kernel/util/crc32.c:258-262 | the table lookup on the register as held is eight bit steps, in both forms |
| Crc32.FourSteps | kernel/util/crc32.c:279-285 | a word exclusive-ored in and four lookups are four bytes fed in turn |
| Crc32.DoCrc | kernel/util/crc32.c:258-262 | the macro feeds one byte |
| Crc32.Bytes | kernel/util/crc32.c:267-273 | the byte loops, up to alignment or to the end |
| Crc32.Words | kernel/util/crc32.c:274-288 | the word loop |
| Crc32.Crc32Le | kernel/util/crc32.c:253-298 | equals the bit-at-a-time CRC for every seed, length and alignment |
| Crc32.Crc32Be | kernel/util/crc32.c:351-395 | likewise, with register and table byte-swapped |
| Crc32.BitwiseLe | kernel/util/crc32.c:241-250 | the one-bit form computes the same definition |
| Crc32.BitwiseBe | kernel/util/crc32.c:337-348 | likewise big-endian |
| CrcAlgebra.Split | kernel/util/crc32.c:613-618 | a CRC can be computed in pieces, split anywhere |
| CrcAlgebra.Residue | kernel/util/crc32.c:605-611 | the CRC of a message followed by its stored CRC is 0 |
| CrcAlgebra.Linear | kernel/util/crc32.c:664-673 | exclusive-or of seeds and messages is exclusive-or of CRCs |
| CrcAlgebra.BurstDetected | kernel/util/crc32.c:420-447 | changing up to four bytes in a row always changes the CRC |
| CrcAlgebra.ReversedCrc | kernel/util/crc32.c:620-631 | the big-endian CRC is the reversal of the little-endian CRC of the reversed message |
| CrcAlgebra.BitRev16Reverses | kernel/util/bitrev.c:64-67 | bitrev16 is the reversal of sixteen bits |
| CrcAlgebra.BitRev32Reverses | kernel/util/bitrev.c:73-76 | bitrev32 reverses all bits |
| CrcAlgebra.BitRev32Twice | kernel/util/bitrev.c:73-76 | twice is the identity |
| CrcAlgebra.EtherCrc | kernel/include/util/crc32.h:30-38 | ether_crc of an address is the big-endian CRC of its bytewise reversal |
| CrcBurst.Reverse32At | kernel/util/bitrev.c:73-76 | the reversal moves bit k to bit 31 - k |
| CrcBurst.Reverse16At | kernel/util/bitrev.c:64-67 | that of a half word moves bit k to bit 15 - k |
| CrcBurst.FourStepsEscape | kernel/util/crc32.c:258-262 | no word without the bits sent first steps to those bits alone |
| CrcBurst.BurstAnywhere | kernel/util/crc32.c:420-447 | changing any of 32 bits in a row, starting at any bit of any byte, always changes the CRC, in both bit orders |
| ModuleLoader.SubtreeExact | kernel/module/loader.c:60-61 | when a name is a subtree, and when memory before the string decides |
| ModuleLoader.StrayPrefix | kernel/module/loader.c:60-61 | a string for which that memory changes which modules are asked for |
| ModuleLoader.SameIsPrefix | kernel/module/loader.c:65-66 | the string comparison is a prefix test |
| ModuleLoader.UpLoadable | kernel/module/loader.c:89-109 | whatever is up could be loaded |
| ModuleLoader.UpSatisfied | kernel/module/loader.c:89-109 | at every moment a module that is up has its dependencies up |
| ModuleLoader.NeverAgain | kernel/module/loader.c:97-102 | init is not called again after it succeeded |
| ModuleLoader.Loader.LoadIndex | kernel/module/loader.c:89-109 | succeeds iff the module is loadable, and then it is up |
| ModuleLoader.Loader.LoadDisj | kernel/module/loader.c:75-87 | succeeds iff some named module is loadable, after trying all of them |
| ModuleLoader.Loader.LoadName | kernel/module/loader.c:56-73 | tries every module of the subtree, or the first of that name |
| ModuleLoader.Loader.LoadAll | kernel/module/loader.c:138-141 | ends with exactly the loadable modules up |
| ModuleLoader.OrderIrrelevant | kernel/module/loader.c:138-141 | with distinct names the list order does not matter |
| Logger.StoreSafe | kernel/util/logger.c:96-99 | a store never hits an unread slot |
| Logger.LoadSafe | kernel/util/logger.c:40-44 | a load gets the next unread character |
| Logger.DropWhenFull | kernel/util/logger.c:92-95 | a character is dropped iff LOGGER_BUF_SIZE - 2 are held |
| Logger.PutKeeps | kernel/util/logger.c:86-104 | every shared access of the producer keeps the invariant |
| Logger.GetKeeps | kernel/util/logger.c:33-45 | every shared access of the consumer does |
| Logger.EveryRun | kernel/util/logger.c:31-62 | over every interleaving, delivered is a prefix of accepted, printed is that without NULs, and the held characters are in their slots |
| Logger.Ring.Putc | kernel/util/logger.c:86-104 | the ring in memory refines the step machine |
| Logger.Ring.Getc | kernel/util/logger.c:33-45 | likewise for the consumer |
| Semaphore.SignalInRange | kernel/smp/semaphore.c:32-46 | the count stays in range iff the sum stays within 0 and the largest int |
| Semaphore.WaitInRange | kernel/smp/semaphore.c:48-64 | and iff no more is given back than there is room for |
| Semaphore.StepExact | kernel/smp/semaphore.c:22-64 | one signal or wait keeps range, queue, waiters and the balance of units iff it is allowed in that state |
| Semaphore.RunExact | kernel/smp/semaphore.c:22-64 | all of it holds after every prefix of a run iff every call was allowed when it came |
| Semaphore.EveryRun | kernel/smp/semaphore.c:22-64 | then the count is init plus posted less taken and less what exceeded max, and every waiting task asked for more than the count |
| Semaphore.WaitSafeIff | kernel/smp/semaphore.c:48-64 | a wait for k keeps the invariant in every state where it holds iff k is not negative |
| Semaphore.WaitersSafeIff | kernel/smp/semaphore.c:48-64 | it strands no waiter iff k is not negative or the smallest int |
| Semaphore.NegativeWaitLosesWakeup | kernel/smp/semaphore.c:48-64 | every negative amount strands a waiter in a state reached by three calls |
| Semaphore.Semaphore.SignalBy | kernel/smp/semaphore.c:32-46 | refines the signal, reports clipping and wakes the whole queue |
| Semaphore.Semaphore.WaitFor | kernel/smp/semaphore.c:48-64 | refines one turn of the wait loop |
| Circular.StepKeeps | kernel/util/circular.c:37-107 | insertion and removal keep order and capacity, and waiters only where they must wait |
| Circular.EveryRun | kernel/util/circular.c:37-107 | over every run removals return the insertions in order; removers wait only on empty, inserters only on full |
| Circular.SlotWritten | kernel/util/circular.c:56-58 | writing one element changes its slot and no other, for any element size |
| Circular.Advance | kernel/util/circular.c:59-61 | moving and resetting the pointer moves to the next slot |
| Circular.Circular.constructor | kernel/util/circular.c:110-127 | an empty buffer |
| Circular.CopyIn | kernel/util/circular.c:58-58 | the copy overwrites exactly the element's bytes |
| Circular.Circular.InsertTurn | kernel/util/circular.c:37-69 | the byte ring refines insertion: done, refused or queued |
| Circular.Circular.RemoveTurn | kernel/util/circular.c:74-107 | and removal, returning the oldest element |
| Frames.Skip | kernel/mem/physical.c:54-58 | a used frame rules out every window up to it |
| Frames.BoundExact | kernel/mem/physical.c:54-54 | the loop bound is right iff count is at most limit + 1 |
| Frames.SearchExact | kernel/mem/physical.c:48-70 | then the search finds the lowest window or there is none, and stays in the table |
| Frames.OversizedRunsOff | kernel/mem/physical.c:48-70 | asking an all-free table for more than it has leads behind it |
| Frames.SetBit | kernel/include/kernel.h:58-58 | setting a bit changes that bit only |
| Frames.ClearBit | kernel/include/kernel.h:59-59 | clearing one likewise |
| Frames.TakeReturn | kernel/mem/physical.c:48-85 | freeing a window restores the set it was taken from |
| Frames.PhysicalMemory.Test | kernel/include/kernel.h:60-60 | the words refine a set of frame numbers: membership |
| Frames.PhysicalMemory.AllocFrame | kernel/mem/physical.c:33-46 | takes the lowest free frame, or there is none |
| Frames.PhysicalMemory.AllocFrames | kernel/mem/physical.c:48-70 | for every count: takes exactly the lowest free window, finds none, or runs off the table, and when which |
| Frames.PhysicalMemory.FreeFrames | kernel/mem/physical.c:72-85 | frees exactly the window |
| KernelMap.PageTable.MapPage | kernel/mem/virtual.c:32-53 | uses the lowest free entry, or there is none |
| KernelMap.PageTable.MapPages | kernel/mem/virtual.c:97-135 | for every count: fills the lowest free window with the frames given, fails with no change, or runs off the table |
| KernelMap.PageTable.MapContiguous | kernel/mem/virtual.c:56-94 | likewise with consecutive frames |
| KernelMap.PageTable.Unmap | kernel/mem/virtual.c:141-151 | clears one entry |
| PageClone.Machine.CopyEntry | kernel/mem/virtual.c:320-343 | copies one page to a fresh frame through two temporary mappings, both undone; without a frame the entry leads nowhere; without mappings it gives up and the frame is lost |
| PageClone.Machine.CloneRound | kernel/mem/virtual.c:318-350 | one entry of the table, or everything undone but the frame of the page |
| PageClone.Machine.CloneTable | kernel/mem/virtual.c:302-357 | fails iff there is no frame for the table, no mapping, or a page and fewer than three; else a table with the same entries, on fresh, distinct frames with equal contents as far as the frames reach |
| PageClone.Machine.CloneEntry | kernel/mem/virtual.c:390-412 | enters the copied table, leaving no mapping; fails iff that copy fails or there is no mapping for the old table |
| PageClone.Machine.CloneDirectory | kernel/mem/virtual.c:363-427 | panics, fails or succeeds, and when which; on success kernel entries are shared, all others copied and frames taken as needed; on failure only the frames counted are lost |
| PageClone.CloneTranslates | kernel/mem/virtual.c:252-282 | with enough frames the clone maps the same pages with the same flags, each to a fresh frame of equal contents |
| PageClone.ShortClone | kernel/mem/virtual.c:320-340 | without, a clone that succeeds maps some page to the last frame of the address space |
| PageClone.CloneDisjoint | kernel/mem/virtual.c:363-417 | with enough frames no two pages of the clone share one |
| PageClone.ParentUntouched | kernel/mem/virtual.c:363-417 | every frame in use keeps its contents, one kernel mapping is left, and the frames taken are those needed or all there were |
| GdbPacket.PairOfDigits | kernel/kdb/i386-stub.c:476-487 | two digits read back as the byte written |
| GdbPacket.RoundTrip | kernel/kdb/i386-stub.c:493-563 | after noise getpacket returns what putpacket sent and acknowledges it, iff it does not read a sequence number |
| GdbPacket.StaleColon | kernel/kdb/i386-stub.c:493-563 | after a numbered packet one of fewer than two characters is answered as numbered and returns the first packet again |
| GdbPacket.LongPacketIgnored | kernel/kdb/i386-stub.c:513-529 | payloads over 398 characters are dropped in silence |
| GdbPacket.BadChecksum | kernel/kdb/i386-stub.c:530-548 | a wrong checksum is refused and the packet skipped |
| GdbPacket.Stub.GetPacket | kernel/kdb/i386-stub.c:493-563 | refines the scanner: answer, string returned, input left, buffer left |
| GdbPacket.Stub.ReadBody | kernel/kdb/i386-stub.c:507-527 | the inner loop, starting again at each '$' |
| GdbPacket.Stub.PutPacket | kernel/kdb/i386-stub.c:566-594 | sends the packet once more than it was refused |
| GdbPacket.Stub.SendOne | kernel/kdb/i386-stub.c:576-590 | one transmission is the packet with its checksum |
| GdbPacket.DecodeEncode | kernel/kdb/i386-stub.c:640-705 | hex2mem undoes mem2hex for any number of bytes |
| GdbPacket.MemToHex | kernel/kdb/i386-stub.c:640-673 | writes two digits for each byte up to a fault and a terminator if there was none; one breakpoint at _start; whether the fault routine is left installed |
| GdbPacket.HexToMem | kernel/kdb/i386-stub.c:678-705 | reads them back up to a fault and changes nothing else; nothing at _start |

## Left out

- SporadicServer.StepKeeps: times and budgets are unbounded integers; 64-bit wrap-around is modelled only in the timer arithmetic, where the code subtracts.
- ServerSupply.MovePending: C is at most T + 1, here and in ServeWithin; PendingIff shows that it is false above. The bounds for larger budgets are proved from the time elapsed.
- ServerSupply.ServeWithin: C is at most T + 1, as in MovePending.
- ServerSupply.ServeBeyond: C is at most T + 1, as in MovePending; when it is false above depends on the lengths of several entries.
- SupplyRun.SupplyBounded: the operations of a run follow one another, with one clock for all processors.
- BandwidthRun.BandwidthHeld: likewise.
- Scheduler.Sched.VcpuWakeup: the caller must not leave the task on another queue, nor running on a VCPU that it is no longer bound to; likewise in JobWakeup.
- Scheduler.Sched.ProcessSleepqueue: no sleeper still runs on a VCPU that it is no longer bound to; likewise in WakeupQueue.
- Scheduler.Sched.SetIovcpu: which I/O VCPU select_iovcpu finds for a device class is a parameter; everything is proved for any choice.
- LibcHeap.Heap.Malloc: addresses are offsets into the arena, and sums and products that overflow are taken to wrap.
- Frames.PhysicalMemory.AllocFrames: stops where the search would read behind the table; what it finds there is not modelled.
- KernelMap.PageTable.MapPages: stops there likewise; virtual addresses are entry numbers and TLB invalidation is left out.
- PageClone.Machine.CloneDirectory: the tables to be cloned are in use and there is no memory at the last frame of the address space; the state after a panic is left open.
- Semaphore.EveryRun: a task runs again only when the queue is woken.
- GdbPacket.MemToHex: a fault that is not looked for is left out, here and in HexToMem.
- Logger.EveryRun: one producer and one consumer, with memory accesses in program order.
- ModuleLoader.Loader.LoadAll: the allocation of the module table is left out; init functions have a fixed outcome.
- Scheduler.Sched.VcpuSchedule: the context switch, statistics and the idle task's selector are left out.
- The CRC forms for 2 and 4 bits at a time: compiled out; the one-bit form is the definition the table form is proved against.
- IPC, virtual-machine, ACPI, boot, driver, file-system and network code: hardware plumbing or easy members.
- vcpu_rr_schedule, vcpu_rr_wakeup and vcpu_dump_stats: simpler duplicates or output.

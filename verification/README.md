# The uC/OS-III kernel: a verified model

This project models the uC/OS-III V3.03.00 kernel of this repository (`ucosTest/Source`) and the hand-over protocol of
its Win32 port (`ucosTest/PORTS/os_cpu_c.c`), and proves what the kernel promises its tasks.

The kernel is one state machine over task control blocks. `KernelState` holds the data: eight task states made of three
bits, the ready list of each priority, the spokes of the tick wheel, the pend list of each object. One step is what a
service does in its critical section together with the scheduling it asks for; `Interrupted` shows what an interrupt
between the two comes to. `KernelOps` and `Services` say what every routine does to the state, as functions;
`KernelCode`, `ObjectCode`, `TaskCode` and `FlagMultiCode` hold the routines as they are coded (a class whose methods
change fields, with the loops and the switches over the task state), each proved equal to its function. The
configuration is the direct-post one; the number of priorities, the wheel size and the pool sizes are symbolic.

Main results, with the module that holds them:

- **Agreement of the data** (`Run`): a task's state bits say which lists it is on, and an object with something to give
  has no waiters, after every run of any service calls and ticks. Some calls are not guarded by the source;
  `InvariantKeptExactly` says for every call, in terms a caller could check before, exactly when it breaks the data, and
  `Reached` gives for each such call a run in which it does.
- **Answers and effects** (`PendAnswers`, `PostAnswers`, `WaitAnswers`, `MutexAnswers`, `ObjectAnswers`, `TaskAnswers`):
  for every service exactly when it answers what, in terms of the state before, and what it changes, told by places in
  lists, single flags and literal limits (`FallingAsleep`, `Repricing`, `ReadyOrder`); a refusal changes nothing.
- **Delivery** (`Delivery`): after any run the next pend succeeds exactly if something is left, and gets the next message
  of the stream.
- **Frames** (`Effects`, `Frames`, `Scheduling`): what each call does to each object and task, with the exact set of
  tasks it wakes, exactly which calls end a wait, and that the highest ready task runs.
- **Order of the pend lists** (`PendOrder`): those of event flag groups included, exactly which calls unsort one.
- **Interrupts** (`Interrupted`): posts that fall between a task's going to sleep and the scheduling leave the data in
  agreement and, but for the order within the ready lists, have the effect of posts right after it.
- **Tick wheel** (`TickWheel`, `Delays`): the hashed, sorted wheel with its early exit expires exactly the tasks that a
  scan of all tasks would, for every wheel size and across the wrap-around of the counter; delays are exact; a periodic
  task wakes at its first deadline plus exact multiples of its period, over every run.
- **Suspension** (`Suspension`): suspend, wake, resume comes to the same as the wake alone, for every kind of wake-up.
  Suspending commutes with post-to-all, with the tick, and with every wake-up but the flags that the suspended task
  awaits with a timeout: OS_FlagTaskRdy leaves such a task in the wheel until it is resumed.
- **Mutexes** (`MutexRun`, `Inheritance`): under the rule "hold or await one mutex at a time" no owner is ever of lower
  priority than a waiter; without it, the exact condition for every call, and a run in which the bound is lost
  (`ReachedLosses`).
- **OSPrioCur** (`RunningPrio`): exactly which calls leave it stale, for every call and every run.
- **Event flags** (`Departures`, `FlagRun`, `SingleFlags`): a post wakes exactly the tasks whose condition holds and
  leaves the others in order; exactly which calls leave somebody waiting in vain, and a run in which one does.
- **Conservation** (`Grants`, `Conservation`, `TaskSignals`, `Broadcast`, `MultiPends`): no signal or message, to an
  object or to a task, is lost, duplicated or overtaken; a wait succeeds through the post that belongs to it only; no
  tick signalled to the tick task is lost; the wake-all loops wake everybody once, in order; a pend on several objects
  takes one unit from each.
- **Pointers** (`LinkedLists`, `TickSpokes`, `MsgPool`, `PrioTable`, `IntQueue`): the intrusive lists, the shared message
  pool with its dangling last pointer, the bitmap and the deferred-post ring refine plain sequences and sets.
- **Port** (`Port`): in every interleaving at most one task thread is at task level, no wake-up is lost, and the
  hand-over never gets stuck.
- **Round robin and statistics** (`TimeSlices`, `CpuUsage`): the exact tick at which a task's turn comes; usages are right
  to a hundredth of a percent and never exceed 100 percent, each and together.

Where the code and its comments differ, the code is modelled: OSMutexPost restores the owner's priority only if somebody
waits (the comment says it always does), and the abort services compare the whole option word with the abort-all option,
so that abort-all without scheduling aborts one task.

## Model

| member | source | states |
|---|---|---|
| Run.InvariantKeptExactly | ucosTest/Source/os_core.c:873-2642 | for every service call and the tick: the lists, the TCBs and the objects agree afterwards if and only if the call is none of the six the source leaves unguarded (deleting a mutex owner or oneself while locked, the 256th suspension, a match delay in the past, the 256th acquisition, a flag wake-up of a task suspended with its timeout running, blocking on one object twice) |
| Run.KernelInvariant | ucosTest/Source/os_core.c:706-726 | from OSStart, after any run of guarded calls: in a ready list (at its priority, once) iff RDY, in its spoke iff DLY bit, on exactly the pend lists of its table, PEND bit iff pending on something, SUSPENDED bit iff counter > 0, spokes sorted by the ticks remaining, pend lists sorted by priority (those of event flag groups: see PendOrder), no waiter on an object with something to give, and no task waiting for own signals or messages that has some |
| Run.InvariantOverRuns | ucosTest/Source/os_core.c:387-420 | the same from any sound state |
| ObjKept.SchedPicksHighest | ucosTest/Source/os_core.c:387-420 | after an unlocked scheduling the current task is the head of the highest non-empty ready list; no list changes |
| Scheduling.StepOutcome | ucosTest/Source/os_core.c:387-420 | for every call but the tick: the clock stands still; the running task and OSPrioCur stay (OSMutexPost sets OSPrioCur itself), or the task switched to heads the highest ready list and OSPrioCur is its priority; and a call that changes the ready lists leaves the scheduler nothing to do, unless it was told not to run it |
| Scheduling.HighestRunsThroughout | ucosTest/Source/os_core.c:387-420 | over every run without calls told not to schedule, the running task heads the highest non-empty ready list in every state with the scheduler unlocked |
| Scheduling.SchedulingMakesUp | ucosTest/Source/os_core.c:387-420 | after wake-ups without scheduling, one scheduling establishes this again |
| Scheduling.NoSwitchWhileLocked | ucosTest/Source/os_core.c:400-403 | over every run in which the scheduler stays locked, whatever is called, the same task runs |
| PendOrder.OrderKeptExactly | ucosTest/Source/os_task.c:127-141 | for every call: the pend lists of event flag groups, sorted before, are sorted afterwards if and only if it is not a change of the priority of a task that waits for flags to one below its successor or above its predecessor |
| PendOrder.OrderOverRunsExactly | ucosTest/Source/os_core.c:1461-1512 | over every run: these lists are sorted in every state if and only if each such change fits the task's place |
| Interrupted.InterruptsInBetween | ucosTest/Source/os_sem.c:385-396 | any posts by interrupts between a call's putting its caller to sleep and the scheduler: the data agree, and every TCB, pend list, spoke and object is as after the same posts right after the scheduling |
| PendAnswers.SemPendAnswers | ucosTest/Source/os_sem.c:311-437 | OSSemPend succeeds if and only if the count is not zero, whatever the options and the lock, and takes one; else it would block, or the scheduler is locked, or the caller waits, queued behind those of its priority and due in exactly the ticks given |
| PendAnswers.QPendAnswers | ucosTest/Source/os_q.c:384-519 | OSQPend succeeds if and only if a message is queued, and takes the first; else the same |
| PendAnswers.TaskSemPendAnswers | ucosTest/Source/os_task.c:1262-1377 | the same for the task's own signals |
| PendAnswers.TaskQPendAnswers | ucosTest/Source/os_task.c:672-796 | the same for the task's own messages |
| PendAnswers.FlagPendAnswers | ucosTest/Source/os_flag.c:392-560 | OSFlagPend succeeds if and only if all, or one, of the wanted flags are as asked; it then reports exactly the wanted flags that are, and turns over exactly these if it consumes; else the same, with what the task waits for recorded |
| MultiPends.MultiPendAnswers | ucosTest/Source/os_pend_multi.c:121-240 | OSPendMulti on distinct objects is refused for a wrong kind, succeeds if and only if one of them has something, and reports for each what it had; else the same, on all their lists |
| MutexAnswers.MutexPendAnswers | ucosTest/Source/os_mutex.c:386-462 | OSMutexPend gives a free mutex to the caller, counts the owner's nesting modulo 256, and else raises the owner, to the head of its ready list or in its pend lists, and lets the caller wait |
| MutexAnswers.MutexPostAnswers | ucosTest/Source/os_mutex.c:681-748 | OSMutexPost is refused to others than the owner, counts nesting down, frees the mutex, or gives the caller its priority back, at the tail of its list, and makes the first waiter ready |
| MutexAnswers.MutexDelAnswers | ucosTest/Source/os_mutex.c:205-290 | OSMutexDel is refused if tasks wait and always is not given; afterwards the mutex is gone, nobody waits for it, the owner has its priority back and the waiters are ready in order |
| PostAnswers.SemPostAnswers | ucosTest/Source/os_sem.c:884-963 | OSSemPost is refused if and only if nobody waits and the count is 0xFFFFFFFF; it counts up, or the first waiter, or all, leave the list and become ready |
| PostAnswers.QPostAnswers | ucosTest/Source/os_q.c:922-979 | OSQPost is refused if and only if nobody waits and the queue is full or no node is left; it stores at the end asked for, or wakes |
| PostAnswers.TaskSemPostAnswers | ucosTest/Source/os_task.c:2342-2453 | the same for a signal to a task |
| PostAnswers.TaskQPostAnswers | ucosTest/Source/os_task.c:2127-2187 | the same for a message to a task |
| WaitAnswers.FlagPostAnswers | ucosTest/Source/os_flag.c:1106-1268 | OSFlagPost sets, or clears, exactly the flags named; exactly the waiters whose condition then holds become ready, in order, and find the flags they waited for |
| WaitAnswers.WokenFinds | ucosTest/Source/os_core.c:927-1083 | a task woken with its object gets the answer that belongs to the call (success, abort or deletion), the message posted or none, and in its table the mark of this object; nothing else about it changes |
| WaitAnswers.OwnWaitFinds | ucosTest/Source/os_task.c:1302-1336 | the same for a wait for its own signals or messages |
| WaitAnswers.TimeUpFinds | ucosTest/Source/os_tick.c:437-505 | the tick counts modulo 2^32; a wait due at the new count ends with a timeout and no message, a delay just ends, and nobody else is touched |
| WaitAnswers.DelayResumed | ucosTest/Source/os_time.c:395-412 | OSTimeDlyResume ends the delay and changes nothing else about the task |
| WaitAnswers.OwnWaitLeaves | ucosTest/Source/os_core.c:1564-1612 | the task is off every list, on which the others keep their order |
| ReadyOrder.TickReadies | ucosTest/Source/os_tick.c:437-505 | the tasks due at a tick become ready in the order of their spoke |
| ObjectAnswers.CreateAnswers | ucosTest/Source/os_sem.c:73-124 | a created object is as given and nobody waits for it |
| ObjectAnswers.ObjDelAnswers | ucosTest/Source/os_sem.c:214-261 | a deletion is refused if and only if the object does not exist or tasks wait and always is not given; afterwards the object is gone, nobody waits for it and the waiters are ready in order |
| ObjectAnswers.SemSetAnswers | ucosTest/Source/os_sem.c:706-726 | OSSemSet is refused if and only if tasks wait; the count is the one given |
| ObjectAnswers.QFlushAnswers | ucosTest/Source/os_q.c:321-335 | OSQFlush leaves no message and the same capacity |
| ObjectAnswers.PendAbortAnswers | ucosTest/Source/os_sem.c:515-551 | an abort is refused if and only if nobody waits or the object does not exist; one waiter, or all, leave the list |
| ObjectAnswers.FlagConsumeAnswers | ucosTest/Source/os_flag.c:587-606 | the flags given to the woken task are turned to what it did not wait for, and no other |
| TaskAnswers.DlyAnswers | ucosTest/Source/os_time.c:98-139 | OSTimeDly is refused if and only if the scheduler is locked, the delay is zero, or the match does not lie 1 to 0xFFFF0001 ticks ahead (when the caller runs on in state DLY); else the caller sleeps until exactly the tick asked for |
| TaskAnswers.DlyResumeAnswers | ucosTest/Source/os_time.c:349-439 | exactly when OSTimeDlyResume answers what, and that the task becomes ready unless suspended |
| TaskAnswers.CreateTaskAnswers | ucosTest/Source/os_task.c:321-432 | OSTaskCreate is refused if and only if the priority is out of range or that of the idle task; the new task has nothing, waits for nothing and is last in its ready list |
| TaskAnswers.DelTaskAnswers | ucosTest/Source/os_task.c:460-566 | OSTaskDel is refused for the idle task and an unused TCB; else the task is off every list, on which the others keep their order, and its TCB is as new |
| TaskAnswers.SuspendAnswers | ucosTest/Source/os_task.c:2486-2549 | exactly when OSTaskSuspend answers what; the suspension is counted modulo 256, a ready task leaves its list, and nothing else changes |
| TaskAnswers.ResumeAnswers | ucosTest/Source/os_task.c:2215-2281 | exactly when OSTaskResume answers what; the count goes down, and at zero a task that waits for nothing else is ready |
| TaskAnswers.ChangePrioAnswers | ucosTest/Source/os_task.c:62-160 | OSTaskChangePrio is refused for the lowest priority and an unused TCB; a ready task moves to the tail of its new list, or to the head by the null-pointer call, a task waiting for objects other than flags queues again |
| TaskAnswers.TaskPendAbortAnswers | ucosTest/Source/os_task.c:1409-1470 | an abort is refused for the caller and for a task that does not wait for this |
| TaskAnswers.RoundRobinAnswers | ucosTest/Source/os_core.c:626-690 | a yield is refused if the scheduler is locked or nobody else is ready at the priority; else the first goes behind the others, once |
| TaskAnswers.LockAnswers | ucosTest/Source/os_core.c:444-490 | up to 250 locks nest, each counted |
| TaskAnswers.UnlockAnswers | ucosTest/Source/os_core.c:505-553 | each unlocking takes one back, and the scheduler runs with the last |
| TaskAnswers.SchedAnswers | ucosTest/Source/os_core.c:387-420 | nothing while locked; else the first task of the highest priority runs, and no list changes |
| Delivery.NextSignal | ucosTest/Source/os_sem.c:363-392 | after any run without a reset: the next OSSemPend succeeds if and only if more signals were there and accepted than obtained, and the next post is refused if and only if the difference is 0xFFFFFFFF |
| Delivery.NextMessage | ucosTest/Source/os_q.c:442-468 | after any run of tail posts: the n-th message received was the n-th of those queued at first and sent, and the next OSQPend takes the next one if there is one |
| Delivery.NextTaskSignal | ucosTest/Source/os_task.c:2342-2453 | the same for the signals to a task |
| Delivery.NextTaskMessage | ucosTest/Source/os_task.c:2127-2187 | the same for the messages to a task |
| TickWheel.TickExpiresExactlyTheDue | ucosTest/Source/os_tick.c:415-517 | one update changes every TCB as the naive timer does: those due at the new tick count expire, all others are untouched |
| TickWheel.TickListsInv | ucosTest/Source/os_tick.c:415-517 | the update keeps all lists sound, every spoke sorted by the ticks remaining, and every ready task as it is |
| TickWheel.DuePrefixCount | ucosTest/Source/os_tick.c:437-505 | the scan, which stops at the first task not due, takes exactly the due entries of a sorted spoke |
| Delays.DelayIsExact | ucosTest/Source/os_tick.c:415-517 | a delay or timeout with r ticks to go ends at the r-th tick, not before, through any calls but those that end the wait (exactly those of Frames.WaitEndsExactly); posts that wake others, suspending it, changing its priority or raising it as an owner do not matter |
| Delays.DlySleeps | ucosTest/Source/os_time.c:80-139 | OSTimeDly puts the caller to sleep for exactly the ticks asked for; a periodic call made in time until the previous due time plus the period, which it records, else for a whole period |
| Delays.PeriodicDoesNotDrift | ucosTest/Source/os_tick.c:244-256 | over any run in which a task makes n periodic calls in time, the tick that ends its n-th delay is the one at which the counter reaches its first deadline plus n periods, modulo 2^32, and no other |
| Delays.DeadlineAfter | ucosTest/Source/os_tick.c:244-256 | the recorded deadline after any run is the first one plus a period for each periodic call of the task; no other call moves it |
| Delays.DueTimeAhead | ucosTest/Source/os_tick.c:230-268 | a due time lies 1 to period ticks ahead for all counter values |
| Frames.OthersStay | ucosTest/Source/os_core.c:873-2642 | for every call but the tick: a task that it does not name keeps its TCB unless it is woken, and the woken are exactly the first that waits for the object, or all if all are meant, or for flags those whose condition holds; their TCBs are given in full |
| Frames.WaitEndsExactly | ucosTest/Source/os_core.c:1844-1916 | a wait goes on, due at the same tick, if and only if the call does not delete the task, resume its delay, abort or satisfy its own wait, or wake it as one of those of Frames.OthersStay |
| Frames.OwnStays | ucosTest/Source/os_task.c:1302-1336 | a task's own signals, messages and period change only through the calls about them |
| Scheduling.NowStays | ucosTest/Source/os_tick.c:425-430 | only the tick update moves the tick counter |
| Suspension.SuspensionIsOrthogonal | ucosTest/Source/os_task.c:2486-2549 | for every blocked task and every event that ends its wait, by OS_FlagTaskRdy for flags: suspend, event, resume leaves the whole kernel state as the event alone |
| Suspension.SuspendCommutesWithWake | ucosTest/Source/os_flag.c:1238-1268 | suspending any task commutes with waking any task by any event, if and only if it is not the flags that the suspended task itself awaits with a timeout running |
| Suspension.SuspendCommutesWithWakeAll | ucosTest/Source/os_sem.c:936-957 | the same for a loop that wakes many |
| Suspension.SuspendCommutesWithTick | ucosTest/Source/os_tick.c:474-502 | the same for the tick |
| Suspension.ResumeUndoesSuspend | ucosTest/Source/os_task.c:2215-2273 | resuming undoes a suspension exactly; a task that was ready goes to where a wake-up would put it |
| Suspension.EverySuspensionNeedsAResume | ucosTest/Source/os_task.c:2215-2273 | after n suspensions m resumes leave n - m; the task is suspended until all are undone |
| MutexRun.NoInversion | ucosTest/Source/os_mutex.c:428-457 | after any run that follows the rule no task waits for a mutex whose owner has a lower priority, and no owner waits for its own mutex |
| MutexRun.InheritanceOverRuns | ucosTest/Source/os_mutex.c:392-462 | the same from any sound state, with timeouts, aborts and deletions in any mixture |
| MutexRun.RaiseIsNotChained | ucosTest/Source/os_mutex.c:428-457 | without the rule a blocking pend keeps the bound if and only if the owner needs no raising or awaits only mutexes whose owners are not below the new waiter |
| MutexRun.ChainBreaksInheritance | ucosTest/Source/os_mutex.c:428-457 | a concrete sound state in which the bound is lost |
| ReachedLosses.ChainIsReached | ucosTest/Source/os_mutex.c:428-457 | a run of eight calls from the start of multitasking reaches this state, and the ninth loses the bound |
| Inheritance.BoundKeptExactly | ucosTest/Source/os_mutex.c:392-462 | for every call, without any rule: owners stay at or above their waiters if and only if a condition on the state before holds, given for pend, release, deletion and change of priority; no other call endangers it |
| Inheritance.PostExactly | ucosTest/Source/os_mutex.c:714-748 | a release with waiters loses the bound exactly when the caller's original priority is below a waiter of another mutex it owns |
| Inheritance.DelExactly | ucosTest/Source/os_mutex.c:232-262 | a deletion loses it exactly when the original priority puts the owner below a waiter of another mutex, or above the owner of one it awaits |
| Inheritance.ChangePrioExactly | ucosTest/Source/os_task.c:110-156 | a change of priority loses it exactly when it puts an owner below a waiter or a waiter above an owner |
| Inheritance.BoundOverRunsExactly | ucosTest/Source/os_mutex.c:392-748 | over every run of guarded calls the bound holds in every state if and only if every call meets its condition |
| MutexRun.ReleaseRestoresExactly | ucosTest/Source/os_mutex.c:706-730 | the last release gives the original priority back if and only if somebody waits or it was never raised |
| MutexRun.GrantEffect | ucosTest/Source/os_mutex.c:706-748 | a release with waiters makes the first waiter the owner with its own priority, nesting 1, and awake; the releaser gets its original priority; nobody else changes |
| MutexRun.FirstIsHighest | ucosTest/Source/os_core.c:1461-1512 | the first of the tasks that wait for an object (other than flags) has the highest priority |
| MutexRun.OwnershipStep | ucosTest/Source/os_mutex.c:392-416 | whatever is called, a mutex is lost only by its owner's last release (or deletion), and nesting and original priority change only by the owner's own calls |
| MutexRun.NestingOverRuns | ucosTest/Source/os_mutex.c:406-410 | while owned, the nesting counter is acquisitions minus releases |
| TaskLists.InsertPlace | ucosTest/Source/os_core.c:1461-1512 | a newcomer stands behind all entries at least as urgent and before the rest: first come first among equals |
| Departures.FlagPostWakesExactlyTheMet | ucosTest/Source/os_flag.c:1106-1268 | a post wakes exactly the waiters whose condition holds on the new flags, with the matching bits reported, and touches no other TCB |
| Departures.FlagPostLeavesTheUnmet | ucosTest/Source/os_flag.c:1142-1203 | after a post the pend list is that of before without the tasks whose condition holds, the others in their order |
| Departures.FlagPostBreaks | ucosTest/Source/os_flag.c:1259-1262 | a task suspended with its timeout running stays in the wheel when flags wake it: the data disagree |
| Departures.TimeDlyBreaks | ucosTest/Source/os_time.c:125-134 | a failed match delay leaves the running task in state DLY |
| Departures.SuspendBreaks | ucosTest/Source/os_task.c:2538-2541 | the 256th suspension wraps the counter to zero |
| Departures.MutexPendBreaks | ucosTest/Source/os_mutex.c:405-411 | the 256th acquisition leaves an owned mutex that looks free |
| Departures.DeleteOwnerBreaks | ucosTest/Source/os_task.c:500-541 | deleting the owner leaves its mutex owned by nobody |
| Departures.MultiPendBreaks | ucosTest/Source/os_pend_multi.c:347-371 | blocking on one object through two entries breaks the pend lists |
| Departures.TaskCreateExactly | ucosTest/Source/os_task.c:330-404 | OSTaskCreate does not ask whether the TCB is in use: with a valid priority the data agree afterwards if and only if the TCB is on no list |
| Reached.DelayDeparts | ucosTest/Source/os_time.c:125-134 | this happens: a run from the start of multitasking, proper up to a match delay in the past, after which the data disagree |
| Reached.SuspensionDeparts | ucosTest/Source/os_task.c:2486-2549 | the same for the 256th suspension |
| Reached.AcquisitionDeparts | ucosTest/Source/os_mutex.c:404-406 | the same for the 256th acquisition |
| Reached.OwnerDeleteDeparts | ucosTest/Source/os_task.c:500-541 | the same for deleting the owner of a mutex |
| Reached.LockedDeleteDeparts | ucosTest/Source/os_task.c:460-566 | the same for deleting oneself while the scheduler is locked |
| Reached.MultiPendDeparts | ucosTest/Source/os_pend_multi.c:396-444 | the same for blocking on one object twice |
| Reached.FlagPostDeparts | ucosTest/Source/os_flag.c:1259-1262 | the same for a flag wake-up of a task suspended with its timeout running |
| RunningPrio.PrioCurStaleExactly | ucosTest/Source/os_task.c:112-117 | after OSTaskChangePrio, for any task and either form of the call, OSPrioCur is right if and only if the running task keeps its priority or a ready task stands ahead of it at the new one |
| RunningPrio.PrioCurStaleAfterDel | ucosTest/Source/os_mutex.c:232-242 | after OSMutexDel OSPrioCur is right if and only if the running task does not get another priority back or a task that is ready, or woken by the deletion, stands ahead of it |
| RunningPrio.PrioCurKeptExactly | ucosTest/Source/os_core.c:387-420 | for every call: OSPrioCur, right before, is right afterwards if and only if the call is neither of these two in the cases given |
| RunningPrio.PrioCurOverRunsExactly | ucosTest/Source/os_core.c:387-420 | over every run: OSPrioCur is right in every state if and only if every call meets this condition |
| ReachedLosses.PrioCurGetsStale | ucosTest/Source/os_task.c:112-117 | it does get stale: a run from the start in which the only task raises itself |
| Effects.StepCalm | ucosTest/Source/os_core.c:873-2642 | a call changes priority, flags waited for and pend table of no task but those it is about, except that others may stop waiting |
| Effects.StepObj | ucosTest/Source/os_core.c:873-2642 | a call changes no object but those it names |
| FlagRun.NobodyMissedExactly | ucosTest/Source/os_flag.c:440-606 | for every call: if no task waits whose condition holds, none does afterwards, if and only if the call does not consume flags so that a waiter's condition comes to hold |
| FlagRun.NeverMissedExactly | ucosTest/Source/os_flag.c:392-606 | over every run: nobody waits in vain in any state if and only if every call meets this condition |
| FlagRun.NobodyWaitsInVain | ucosTest/Source/os_flag.c:392-606 | if all tasks wait for set bits, no task ever waits whose condition holds |
| FlagRun.NobodyMissedOverRuns | ucosTest/Source/os_flag.c:1106-1204 | the same from any such state, through posts, pends and consumption; the condition of NeverMissedExactly is met |
| FlagRun.ClearConsumerMissesSetWaiter | ucosTest/Source/os_flag.c:440-470 | a consumer of clear bits sets them: a waiter for all of them set sleeps on |
| ReachedLosses.WaiterGetsMissed | ucosTest/Source/os_flag.c:440-470 | a run from the start of multitasking in which nobody waits in vain, and whose next call, consuming a clear bit that another task awaits to be set, leaves that task asleep |
| Broadcast.BroadcastWakesEachOnce | ucosTest/Source/os_sem.c:237-244 | the wake-all loops wake every task waiting at entry, once, and nobody else, and leave the list empty |
| Broadcast.WakeAllOrder | ucosTest/Source/os_core.c:2074-2082 | the order in which the woken tasks stand in each ready list |
| Broadcast.FirstWoken | ucosTest/Source/os_sem.c:936-957 | waking one takes the first and leaves the rest in order |
| Broadcast.AbortAllAbortsOneWithoutSched | ucosTest/Source/os_sem.c:533-542 | abort-all together with no-schedule aborts only the first waiter, and who is aborted in each case |
| Grants.GrantedExactly | ucosTest/Source/os_core.c:1844-1916 | for every call: the wait of a task for a semaphore or queue ends with success (for a multi-pend: with this object marked) if and only if the call posts to it and the task is the first waiter or all are meant |
| Grants.GrantsExactly | ucosTest/Source/os_sem.c:938-957 | for every call: how many waits for an object it satisfies |
| Conservation.SignalsConserved | ucosTest/Source/os_sem.c:363-392 | over any run without a reset: initial count and signals accepted equal the count and the units obtained, by a call at once or by a wait that ends with success in any call, multi-pends included |
| Conservation.MessagesConserved | ucosTest/Source/os_q.c:442-468 | over any run without a reset, whichever end is posted to: messages received and still queued are, as a multiset, those queued at first and those sent |
| Conservation.MessagesInOrder | ucosTest/Source/os_q.c:442-468 | over any run without head posts: messages received, by a call or by a wait that ends with success, then those still queued, are those queued at first, then those sent, in order; a post to all sends one copy to each waiter |
| Conservation.PostDelivers | ucosTest/Source/os_core.c:1868-1886 | the waiter that a post wakes finds the message posted, in its TCB or its table |
| TaskSignals.TaskSignalsConserved | ucosTest/Source/os_task.c:2342-2453 | over any run that does not create or delete the task: signals it had and signals sent to it are the signals it took, by a call or at the end of a wait, and those it has |
| TaskSignals.TaskMessagesConserved | ucosTest/Source/os_task.c:2127-2187 | the same for the messages sent to it, as a multiset, whichever end is posted to |
| TaskSignals.TaskMessagesInOrder | ucosTest/Source/os_task.c:2127-2187 | the same for its message queue, in order, if posted at the tail |
| TaskSignals.OnlyPostServes | ucosTest/Source/os_task.c:1302-1336 | a wait for own signals or messages ends with success through the post that belongs to it and nothing else |
| TaskSignals.TicksNotLost | ucosTest/Source/os_tick.c:63-79 | ticks signalled to the tick task are the updates it has done, the signals still pending, and at most one update about to be done |
| MultiPends.MultiPendTakes | ucosTest/Source/os_pend_multi.c:175-199 | on distinct objects the call returns at once iff one has something; then it took one unit from each that had, marked exactly those, and changed nothing else |
| MultiPends.WokenByOne | ucosTest/Source/os_core.c:1970-1995 | a woken multi-pend has exactly one entry marked, that of the object that woke it (none after a timeout), and is on no list |
| MutexKept.MutexPostInv | ucosTest/Source/os_mutex.c:648-748 | releasing keeps all data in agreement, with the new owner named before it is woken |
| FlagsMultiKept.FlagPostInv | ucosTest/Source/os_flag.c:1106-1215 | posting flags keeps all data in agreement unless it wakes a task suspended with its timeout running |
| ServicesKept.ChangePrioKept | ucosTest/Source/os_task.c:110-156 | a task changing priority is re-sorted in every pend list it is on unless it waits for flags, when it keeps its place (PendOrder says when that is out of order), and no entry is lost or duplicated |
| KernelCode.Kernel.constructor | ucosTest/Source/os_core.c:55-235 | starts with empty lists, the idle task ready, all data in agreement |
| KernelCode.Kernel.RdyListInsert | ucosTest/Source/os_core.c:2074-2082 | the task goes to the tail at the current priority, else to the head; the priority table follows |
| KernelCode.Kernel.RdyListRemove | ucosTest/Source/os_core.c:2386-2419 | the task leaves its list; the priority table follows |
| KernelCode.Kernel.PrioGetHighest | ucosTest/Source/os_prio.c:85-99 | finds the least priority with a ready task; ends because there is one |
| KernelCode.Kernel.Sched | ucosTest/Source/os_core.c:387-420 | is the scheduling step of the model, and nothing while interrupts are nested |
| KernelCode.Kernel.TickListInsert | ucosTest/Source/os_tick.c:220-317 | computes the due time of each option in 32 bits and links the task in order into its spoke; what that comes to: TaskAnswers.DlyAnswers |
| KernelCode.Kernel.TickListRemove | ucosTest/Source/os_tick.c:337-368 | unlinks the task and clears its due time |
| KernelCode.Kernel.PendListInsertPrio | ucosTest/Source/os_core.c:1461-1512 | the walk inserts in order of priority, first come first among equals |
| KernelCode.Kernel.PendListRemove | ucosTest/Source/os_core.c:1564-1586 | the loop takes the task off every list of its table |
| KernelCode.Kernel.PendListChangePrio | ucosTest/Source/os_core.c:1276-1301 | the loop re-sorts the task in every list of its table |
| KernelCode.Kernel.TaskBlock | ucosTest/Source/os_core.c:2598-2618 | timer, state and ready list of a task that starts to wait |
| KernelCode.Kernel.Pend | ucosTest/Source/os_core.c:873-904 | the steps in the order of the code amount to the blocking step of the model; what that comes to: PendAnswers.SemPendAnswers |
| KernelCode.Kernel.PendListsInsert | ucosTest/Source/os_pend_multi.c:396-444 | the loop links the task into the list of every entry |
| KernelCode.Kernel.TaskRdy | ucosTest/Source/os_core.c:2636-2642 | off the wheel, and ready unless suspended |
| KernelCode.Kernel.MarkEntry | ucosTest/Source/os_core.c:1970-1995 | the search marks the first entry of the object and no other |
| KernelCode.Kernel.Post | ucosTest/Source/os_core.c:1844-1916 | the switch over the states is the wake-up by a post, and nothing for a task that does not pend |
| KernelCode.Kernel.PendAbort | ucosTest/Source/os_core.c:927-983 | the same for an abort |
| KernelCode.Kernel.PendObjDel | ucosTest/Source/os_core.c:1693-1745 | the same for a deletion |
| KernelCode.Kernel.Expire | ucosTest/Source/os_tick.c:441-505 | the four cases of a task whose time has come |
| KernelCode.Kernel.TickListUpdate | ucosTest/Source/os_tick.c:415-517 | the loop over a spoke with its early exit is the tick of the model |
| ObjectCode.PostToWaiters | ucosTest/Source/os_sem.c:936-957 | the cursor loop wakes the first or all waiters and keeps all data in agreement |
| ObjectCode.DeleteWaiters | ucosTest/Source/os_sem.c:237-244 | the loop from the head wakes all and ends with an empty list |
| ObjectCode.AbortWaiters | ucosTest/Source/os_sem.c:533-542 | the loop ends after one or after all, and counts them |
| ObjectCode.PendSem | ucosTest/Source/os_sem.c:311-436 | is OSSemPend of the model, up to where the caller blocks; what that comes to: PendAnswers.SemPendAnswers |
| ObjectCode.PostSem | ucosTest/Source/os_sem.c:884-963 | is OS_SemPost of the model; what that comes to: PostAnswers.SemPostAnswers |
| ObjectCode.SetSem | ucosTest/Source/os_sem.c:676-726 | is OSSemSet of the model; what that comes to: ObjectAnswers.SemSetAnswers |
| ObjectCode.AbortPend | ucosTest/Source/os_sem.c:471-551 | is the abort of the model and answers how many tasks it aborted; what that comes to: ObjectAnswers.PendAbortAnswers |
| ObjectCode.DeleteObj | ucosTest/Source/os_sem.c:163-261 | is the deletion of the model and answers how many tasks were waiting, also when that makes it refuse; what that comes to: ObjectAnswers.ObjDelAnswers |
| ObjectCode.PendQ | ucosTest/Source/os_q.c:384-519 | is OSQPend of the model; what that comes to: PendAnswers.QPendAnswers |
| ObjectCode.PostQ | ucosTest/Source/os_q.c:922-979 | is OS_QPost of the model; what that comes to: PostAnswers.QPostAnswers |
| ObjectCode.FlushQ | ucosTest/Source/os_q.c:294-335 | is OSQFlush of the model and answers how many messages it freed; what that comes to: ObjectAnswers.QFlushAnswers |
| TaskCode.Suspend | ucosTest/Source/os_task.c:1738-1781 | is the suspension of the model, the wrapping of the counter included; what that comes to: TaskAnswers.SuspendAnswers |
| TaskCode.Resume | ucosTest/Source/os_task.c:1176-1225 | is the resumption of the model; what that comes to: TaskAnswers.ResumeAnswers |
| TaskCode.ChangePriority | ucosTest/Source/os_task.c:62-160 | is OSTaskChangePrio of the model, switch by switch; what that comes to: TaskAnswers.ChangePrioAnswers |
| TaskCode.CreateTask | ucosTest/Source/os_task.c:249-432 | is OSTaskCreate of the model, whatever the TCB was used for before; what that comes to: TaskAnswers.CreateTaskAnswers |
| TaskCode.DeleteTask | ucosTest/Source/os_task.c:460-566 | is OSTaskDel of the model; what that comes to: TaskAnswers.DelTaskAnswers |
| TaskCode.Delay | ucosTest/Source/os_time.c:80-139 | is OSTimeDly of the model, with its failing path; what that comes to: TaskAnswers.DlyAnswers |
| TaskCode.ResumeDelayed | ucosTest/Source/os_time.c:349-439 | is OSTimeDlyResume of the model; what that comes to: TaskAnswers.DlyResumeAnswers |
| TaskCode.PostTaskSem | ucosTest/Source/os_task.c:2342-2453 | is OS_TaskSemPost of the model; what that comes to: PostAnswers.TaskSemPostAnswers |
| TaskCode.PostTaskQ | ucosTest/Source/os_task.c:2127-2187 | is OS_TaskQPost of the model; what that comes to: PostAnswers.TaskQPostAnswers |
| TaskCode.PendTaskSem | ucosTest/Source/os_task.c:1262-1377 | is OSTaskSemPend of the model, up to where the caller blocks; what that comes to: PendAnswers.TaskSemPendAnswers |
| TaskCode.PendTaskQ | ucosTest/Source/os_task.c:672-796 | is OSTaskQPend of the model, up to where the caller blocks; what that comes to: PendAnswers.TaskQPendAnswers |
| TaskCode.AbortTaskPend | ucosTest/Source/os_task.c:1409-1470 | is the abort of a wait for signals or messages of the model; what that comes to: TaskAnswers.TaskPendAbortAnswers |
| TaskCode.PendMutex | ucosTest/Source/os_mutex.c:339-503 | is OSMutexPend of the model, with inheritance; what that comes to: MutexAnswers.MutexPendAnswers |
| TaskCode.PostMutex | ucosTest/Source/os_mutex.c:648-748 | is OSMutexPost of the model; what that comes to: MutexAnswers.MutexPostAnswers |
| TaskCode.DeleteMutex | ucosTest/Source/os_mutex.c:160-290 | is OSMutexDel of the model and answers how many tasks were waiting; what that comes to: MutexAnswers.MutexDelAnswers |
| FlagMultiCode.FlagTaskRdy | ucosTest/Source/os_flag.c:1238-1268 | is the flag wake-up of the model, with the task it leaves in the wheel |
| FlagMultiCode.FlagsReady | ucosTest/Source/os_flag.c:1147-1192 | the switch over the modes: the condition holds if and only if all, or one, of the wanted flags are set, or clear; the bits found are the wanted flags that are so |
| FlagMultiCode.ConsumeFlags | ucosTest/Source/os_flag.c:587-606 | consuming turns over the flags that were found and no other |
| FlagMultiCode.ChangeFlags | ucosTest/Source/os_flag.c:1123-1139 | a post sets or clears the flags named and no other |
| SingleFlags.MetMeans | ucosTest/Source/os_flag.c:374-528 | the comparison of words decides the condition on single flags, in every mode |
| SingleFlags.BitsMean | ucosTest/Source/os_flag.c:374-528 | the bits extracted are exactly the wanted flags that are as the mode asks |
| FlagMultiCode.FlagPostWalk | ucosTest/Source/os_flag.c:1142-1203 | the walk looks at every waiter once, in list order |
| FlagMultiCode.PostFlags | ucosTest/Source/os_flag.c:1106-1215 | is OS_FlagPost of the model; what that comes to: WaitAnswers.FlagPostAnswers |
| FlagMultiCode.PendFlags | ucosTest/Source/os_flag.c:315-610 | is OSFlagPend of the model, up to where the caller blocks; what that comes to: PendAnswers.FlagPendAnswers |
| FlagMultiCode.PendMultiGetRdy | ucosTest/Source/os_pend_multi.c:253-312 | the pass over the table takes from each object what it has |
| FlagMultiCode.PendMultiValidate | ucosTest/Source/os_pend_multi.c:334-373 | accepts exactly tables of semaphores and queues |
| FlagMultiCode.PendMulti | ucosTest/Source/os_pend_multi.c:121-232 | is OSPendMulti of the model; what that comes to: MultiPends.MultiPendAnswers |
| LinkedLists.List.InsertPrio | ucosTest/Source/os_core.c:1461-1512 | the relinking gives a well-formed list whose tasks are the ordered insertion |
| LinkedLists.List.InsertHead | ucosTest/Source/os_core.c:2141-2163 | a well-formed list with the node in front |
| LinkedLists.List.InsertTail | ucosTest/Source/os_core.c:2222-2244 | a well-formed list with the node behind |
| LinkedLists.List.Remove1 | ucosTest/Source/os_core.c:1639-1670 | a well-formed list without the node, whose links are cleared |
| LinkedLists.List.RdyRemove | ucosTest/Source/os_core.c:2386-2419 | the same, and whether the list is empty now |
| LinkedLists.List.MoveHeadToTail | ucosTest/Source/os_core.c:2299-2335 | rotation by one for every length |
| LinkedLists.IdsDrop | ucosTest/Source/os_core.c:1639-1670 | unlinking a task's node drops the task from the list |
| TickSpokes.Spoke.Insert | ucosTest/Source/os_tick.c:269-317 | the relinking, with the refresh of the ticks remaining, is the ordered insertion |
| TickSpokes.Spoke.FindPlace | ucosTest/Source/os_tick.c:276-313 | the walk finds the first task with no fewer ticks remaining |
| TickSpokes.Spoke.Remove | ucosTest/Source/os_tick.c:337-368 | a well-formed spoke without the task |
| MsgPool.GetOk | ucosTest/Source/os_msg.c:229-274 | taking a message: head removal, node back to the pool, other queues untouched, partition kept |
| MsgPool.PutOk | ucosTest/Source/os_msg.c:309-368 | putting a message: at tail or head, node from the pool, other queues untouched, partition kept |
| MsgPool.FreeAllOk | ucosTest/Source/os_msg.c:154-174 | emptying a queue returns the whole chain, other queues untouched, partition kept |
| MsgPool.LastNodeMayDangle | ucosTest/Source/os_msg.c:345-348 | the first message of a queue points into the free list, and the pool is nevertheless sound |
| MsgPool.Pool.constructor | ucosTest/Source/os_msg.c:62-88 | all nodes free and linked, all queues empty |
| MsgPool.Pool.Get | ucosTest/Source/os_msg.c:229-274 | the pointer surgery does this, and fails exactly on an empty queue |
| MsgPool.Pool.Put | ucosTest/Source/os_msg.c:309-368 | the pointer surgery refines the bounded queue of the model, with both errors |
| MsgPool.Pool.FreeAll | ucosTest/Source/os_msg.c:154-174 | the pointer surgery empties the queue and reports how many |
| PrioTable.Table.Insert | ucosTest/Source/os_prio.c:115-127 | sets the bit of this priority and of no other, for every word size |
| PrioTable.Table.Remove | ucosTest/Source/os_prio.c:143-155 | clears the bit of this priority and of no other |
| PrioTable.Table.GetHighest | ucosTest/Source/os_prio.c:85-99 | ends if any bit is set and finds the least priority |
| PrioTable.CntLeadZeros | ucosTest/Source/os_prio.c:96-97 | the zeros above the most significant one bit |
| IntQueue.IntQ.Post | ucosTest/Source/os_int.c:91-143 | accepted at the tail or counted as overflow; never the slot being replayed; priority 0 ready |
| IntQueue.IntQ.Look | ucosTest/Source/os_int.c:279-289 | priority 0 stops being ready only when everything accepted was replayed |
| IntQueue.IntQ.RePost | ucosTest/Source/os_int.c:159-253 | replays the oldest entry, once |
| IntQueue.IntQ.Release | ucosTest/Source/os_int.c:298-303 | gives its slot back |
| IntQueue.IntQ.Interleave | ucosTest/Source/os_int.c:111-306 | posts arriving between any two turns of the task: accepted ones are replayed in order and each once, the others counted, and whatever was queued at first is replayed once the task has had three turns for each entry and one more |
| IntQueue.IntQ.Drain | ucosTest/Source/os_int.c:269-306 | with no posts arriving the loop replays everything accepted, in order |
| Port.StepKeeps | ucosTest/PORTS/os_cpu_c.c:814-1290 | every step of every thread keeps the invariant of the hand-over |
| Port.OneTaskAtATime | ucosTest/PORTS/os_cpu_c.c:814-929 | in every interleaving at most one thread is at task level, that of the current task, and none during the tick interrupt |
| Port.FreeMeansCurrentRuns | ucosTest/PORTS/os_cpu_c.c:1092-1168 | whenever the critical section is free the one RUNNING task is the current one and the one chosen last |
| Port.NoWakeUpLost | ucosTest/PORTS/os_cpu_c.c:920-928 | a task made RUNNING while its thread waits can go on, and only such a task |
| Port.AlwaysAStep | ucosTest/PORTS/os_cpu_c.c:814-1290 | the hand-over never gets stuck |
| Port.SectionIsLeft | ucosTest/PORTS/os_cpu_c.c:1184-1245 | the critical section is left after a bounded number of steps |
| TimeSlices.TurnComesExactlyThen | ucosTest/Source/os_core.c:2525-2576 | the task at index k becomes head after exactly max(1, head's counter) plus the slices in between, and at no tick before |
| TimeSlices.TurnUnderLocks | ucosTest/Source/os_core.c:2547-2568 | with the scheduler locked at some ticks, the head's slice ends at the first tick that finds its counter used up and the scheduler unlocked, and at no tick before |
| TimeSlices.ReadyList.SchedRoundRobin | ucosTest/Source/os_core.c:2525-2576 | one tick of the list, with all its guards |
| CpuUsage.OverallUsage | ucosTest/Source/os_stat.c:327-355 | no product overflows 32 bits, the subtraction never goes below zero, and the result is 10000 less the idle share, right to a hundredth of a percent |
| CpuUsage.TaskUsages | ucosTest/Source/os_stat.c:359-416 | the two loops: no overflow, the cap never bites, each usage is the task's share, right to a hundredth of a percent, and all together add up to at most 10000 |
| CpuUsage.ShareAccurate | ucosTest/Source/os_stat.c:378-416 | in every scaling bracket a usage is less than one hundredth of a percent too small and at most a quarter of one too large |
| CpuUsage.UsagesBounded | ucosTest/Source/os_stat.c:378-416 | rounding down in every scaling bracket keeps the sum within 100 percent |

## Left out

- IntQueue.IntQ.RePost: hands the entry out; which service OS_IntQRePost then calls for each kind of entry is not part of
  the queue's model.
- Conservation.MessagesInOrder: posts to the head of a queue are excluded, as they overtake; with them
  MessagesConserved holds.
- TaskSignals.TaskMessagesInOrder: the same, with TaskMessagesConserved.
- Runs of the state machine: a service and the scheduling it asks for are one step, so that a run with an interrupt
  between the two is not among them; for the calls that put the caller to sleep InterruptsInBetween covers these.
- The kernel class keeps lists as sequences and the priority table as a set; the pointers and the bitmap are verified in
  modules of their own and not substituted into the class.
- The part of a pend call after the caller was woken returns the status left in its TCB (`PendResult`) and, for flags,
  consumes (`FlagConsume`); resetting PendStatus is not modelled.
- Interrupt nesting but for the early return of OSSched (a service called from an interrupt is one that does not
  schedule, and OSIntExit is the scheduling step), the argument and ISR-context checks, time stamps, debug lists, peak
  counters and hooks.
- OSTimeSet, OSTaskSemSet on a waiting task and OSTaskQFlush; OSTimeDlyHMSM beyond the delay it ends in.
- Software timers, thread-local storage, stack checks, task registers, and the fixed-block allocator of os_mem.c, whose
  free list is a simpler case of the message pool's.
- In the port: thread creation, termination, and the real Win32 calls; the first task has been started, the critical
  section excludes, a frozen thread takes no step, and events reset themselves.
- The network examples, board support and configuration files.

# CH32L103 FreeRTOS kernel and RTC calendar

A Dafny model of the FreeRTOS V10.4.6 kernel of the CH32L103 SDK and of the calendar arithmetic
of its RTC example, with proofs of what they are relied on for.  `dafny verify dfyconfig.toml`
checks the whole project.

## What is modelled

The build options are those of `FreeRTOSConfig.h`: preemption and time slicing on, generic task
selection, 15 priorities, 32-bit ticks, mutexes and timers on, tickless idle off.

- `Ticks`: 32-bit tick values and the unbounded absolute times they stand for.
- `ListModel`, `IntrusiveList`, `ItemLists`: the circular list with its end marker and walking
  index, as a ring, as heap objects that refine the ring, and as the families of lists that the
  list items of tasks are in.
- `Kernel`: the scheduler's state and one function for each critical section. `KernelProofs`,
  `KernelSteps`: the invariant and every step of every run. `KernelTheorems`, `KernelWake`,
  `KernelGuarantee`, `KernelEffects`: what follows for partition, time, waking, priorities and
  suspension, and what each operation achieves.
  `KernelExamples`: concrete states.
  `Scheduler`: the variables of `tasks.c` and its functions, each proved to compute the function
  of `Kernel` it implements.
- `QueueStorage`: the ring of items in a queue's storage. `QueueProtocol`: blocking, lock counts
  and waking, as a machine in which tasks and interrupts interleave. `Queues`: the queue's code
  over both. Semaphores are queues of items of size zero.
- `Mutexes`: holders, held counts, priority inheritance and recursion over whole runs.
- `Timers`, `TimerTask`: the timer daemon in real time, and its code on 32-bit ticks.
- `StreamBuffer`, `MessageFlow`, `Handshake`: the byte ring and its code, one writer and one
  reader interleaved between any two bytes, and how a task waits on a buffer.
- `EventGroups`: conditions, waking, clearing, and the walk over the waiter list.
- `Timeouts`: deadlines that are re-checked, and periodic delays.
- `Calendar`: the reference calendar and the RTC code.

How the code is read:

- A critical section, or a stretch with interrupts masked, is one atomic step; interrupts fall
  between steps. Code that runs with the scheduler suspended is split at its critical sections
  wherever an interrupt can interfere (queue locking), and otherwise is one step.
- `portYIELD` makes the software interrupt pending; the switch is a step of its own. In interrupts
  the model leaves `xYieldPending` set, which the next tick or resume acts on.
- Absolute counts (`now`, `interrupts`, `dropped`, a timer's plan, the woken sets of a queue, the
  boosters of a mutex) are auxiliary: they say what the 32-bit state means and nothing depends on
  them. Where code would hold them they are ghost, except in `Scheduler`, whose state is compared
  as a whole.
- A task's event item carries its priority in `QueueProtocol` and `Mutexes`, where the order of a
  waiting list matters; in `Kernel` its position is a parameter, so the theorems hold for every
  order.
- A false assertion of the code stops the system. Four of them can be false without a fault of the
  application: the lock counts of a queue, two assertions in taking a mutex (flags of the
  queue and the mutex machine, with the exact conditions), and the one that a notified task is on no
  event list (`NotifyAssertHolds`). The assertions on selecting a task, switching the delayed
  lists, registering on a stream buffer and the held count of a mutex holder are proved never to
  fail in a run. What callers outside the kernel owe (arguments, suspension depth, that only the
  holder gives a mutex) is in `Allowed` or `Enabled`.

## Where the code does less than one would expect

Each of these is an if-and-only-if or a concrete state below.

- Giving a mutex forgets to yield when the giver falls back to its base priority and wakes a
  waiter that does not outrank it (`GiveKeepsGuaranteeIff`, `GivingCanBreakGuarantee`).
- After a time-out the holder is set to the highest remaining waiter even if that raises it, and no
  yield is asked for then (`AfterTimeoutKeepsGuaranteeIff`, `TimingOutCanBreakGuarantee`).
- Taking a mutex with a time-out can fail two assertions: a task that blocks on a mutex it holds
  already can come to lower itself, and a task that inherited can find the mutex taken again on its
  last try (`FailsExactly`, `BlockingOnOwnFails`, `TheLastTryFails`).
- Inheritance is not transitive (`BlockKeepsInheritedIff`, `NestingBreaksInheritance`).
- A finite block of zero ticks at tick 0xFFFFFFFF defeats the assertion that the delayed list is
  empty when the lists are switched (`BlockIsSwitchSafeIff`, `BlockingTripsSwitchAssert`); the kernel's own callers never ask
  for one there.
- `xTaskCheckForTimeOut` can miss a time-out if it is first called after the count has wrapped twice
  (`CheckIsExactIff`, `TwoWrapsAreConfusing`).
- `xTaskResumeFromISR` can put the event item of a task that waits for a notification on the
  pending-ready list, after which notifying it fails an assertion (`ResumeCanTripNotifyAssert`,
  `ResumingTripsNotifyAssert`).
- `prvBytesInBuffer` overflows for buffers of more than half the address space
  (`BytesInBuffer32IsRightIff`).
- `RTC_Get_Week` takes years from 2100 on for those of the 21st century
  (`WeekIsDayNumberModSeven`), and `RTC_Get` indexes its week table with month 0 until a non-zero
  day has been read (`Rtc.Get`, `SetThenRead`, `FirstDayIsNotSeen`).

## Model

| member | source | states |
|---|---|---|
| `KernelSteps.InitialIsSound` | EVT/EXAM/FreeRTOS/FreeRTOS/tasks.c:1997-2083 | The state in which the scheduler starts (every task ready at its base priority, one of the highest running, no tick yet) satisfies the invariant and the guarantee; all runs start there |
| `KernelExamples.AloneStarts` | EVT/EXAM/FreeRTOS/FreeRTOS/tasks.c:1997-2083 | The idle task alone is such a start, so there are runs and reachable states |
| `KernelTheorems.ListsPartitionTasks` | EVT/EXAM/FreeRTOS/FreeRTOS/tasks.c:221-225 | In every reachable state each task's state item is in exactly one list, once; a ready task is in the list of its present priority, whatever inheritance or `vTaskPrioritySet` did; `uxTopReadyPriority` bounds every ready priority |
| `KernelTheorems.SelectionIsHighest` | EVT/EXAM/FreeRTOS/FreeRTOS/tasks.c:136-151 | In every reachable state with the scheduler running, the scan for the next task finds a non-empty list (its assertion never fails), and the task then running outranks every ready one |
| `KernelTheorems.EpochsNeverMix` | EVT/EXAM/FreeRTOS/FreeRTOS/tasks.c:201-213 | In every reachable state the delayed list holds only wake times of the present overflow epoch, the overflow list only those of the next, and the delayed list is empty when the count is about to wrap |
| `KernelTheorems.NoTickIsLost` | EVT/EXAM/FreeRTOS/FreeRTOS/tasks.c:2892-2894 | Over every run from scheduler start: ticks counted + ticks pended + ticks dropped by a wrap of `xPendedTicks` = tick interrupts and caught-up ticks |
| `KernelTheorems.DropsExactly` | EVT/EXAM/FreeRTOS/FreeRTOS/tasks.c:2638-2653 | A step drops ticks if and only if it adds more to `xPendedTicks` than fits: a tick interrupt on a suspended scheduler with the count at its maximum, or a catch-up that exceeds it |
| `KernelTheorems.NoneDropped` | EVT/EXAM/FreeRTOS/FreeRTOS/tasks.c:2892-2894 | In runs without such a step nothing is dropped, and ticks counted + ticks pended = all ticks there were |
| `KernelWake.WakesOnTime` | EVT/EXAM/FreeRTOS/FreeRTOS/tasks.c:2736-2846 | Over every run: a task that blocks for d > 0 ticks at T, by a delay, on an event list or for a notification, and that no step concerns before, is on the delayed lists exactly while the count is below T + d; across any number of overflows, and whether ticks are counted as they come or made up for on resuming |
| `KernelWake.ExactWake` | EVT/EXAM/FreeRTOS/FreeRTOS/tasks.c:2220-2329 | It leaves them in exactly the step that counts tick T + d, be it the interrupt of that tick or the outermost resume, and is ready then |
| `KernelWake.BlockMeans` | EVT/EXAM/FreeRTOS/FreeRTOS/tasks.c:5310-5381 | From every sound state: the running task is in the suspended list if and only if the time is the maximal one and the wait may be indefinite; otherwise it is due that many ticks from now, in the delayed list if that is in the present overflow epoch and in the overflow list if it is in the next; nobody else moves |
| `KernelWake.BlockOnEventMeans` | EVT/EXAM/FreeRTOS/FreeRTOS/tasks.c:3097-3178 | The same for a wait on an event list: the running task also stands at its place on it, between those who were there, and no other event list changes |
| `KernelWake.NotifyWaitMeans` | EVT/EXAM/FreeRTOS/FreeRTOS/tasks.c:4704-4855 | The same for a wait for a notification: the task is marked as waiting for one, and with time to wait it waits as said, for ever if the time is the maximal one, and a switch is asked for |
| `KernelWake.OthersLeaveAlone` | EVT/EXAM/FreeRTOS/FreeRTOS/tasks.c:1716-1990 | A step that neither concerns a task nor counts ticks leaves it on its delayed list, or off them |
| `KernelTheorems.OneTickWakes` | EVT/EXAM/FreeRTOS/FreeRTOS/tasks.c:2736-2846 | The same for each single tick that is counted, be it counted in the interrupt or made up for when the scheduler resumes |
| `KernelSteps.SelectionSucceeds` | EVT/EXAM/FreeRTOS/FreeRTOS/tasks.c:136-151 | The scan down from `uxTopReadyPriority` ends at a non-empty list, because the idle task is always ready and the recorded top bounds every ready priority |
| `KernelSteps.BlockIsSwitchSafeIff` | EVT/EXAM/FreeRTOS/FreeRTOS/tasks.c:5347-5379 | Blocking keeps the list-switch assertion true if and only if it is not a zero-length finite block made exactly at the last tick before the count wraps |
| `KernelSteps.ResumeAllKeepsInv` | EVT/EXAM/FreeRTOS/FreeRTOS/tasks.c:2220-2329 | Resuming keeps the invariant; the outermost resume leaves no pending-ready task and no pended tick |
| `KernelSteps.StepKeepsInv` | EVT/EXAM/FreeRTOS/FreeRTOS/tasks.c:1550-1709 | Every step (tick and switch interrupts, blocking, waking, notifying, suspending, resuming, priority changes, mutex inheritance) keeps the whole scheduler invariant |
| `KernelSteps.MutexKeepsInv` | EVT/EXAM/FreeRTOS/FreeRTOS/tasks.c:4074-4343 | Inheriting, disinheriting and disinheriting after a time-out keep the whole scheduler invariant |
| `KernelSteps.EveryStateIsSound` | EVT/EXAM/FreeRTOS/FreeRTOS/tasks.c:2736-2906 | Every state of every run satisfies the scheduler invariant |
| `KernelProofs.ExpireIsFullScan` | EVT/EXAM/FreeRTOS/FreeRTOS/tasks.c:2770-2846 | The unblocking loop, which stops at the first head that is not due, readies exactly the tasks that a scan of the whole delayed list would, leaves the others in place, and leaves the cached unblock time below all of them |
| `KernelProofs.AdvanceKeeps` | EVT/EXAM/FreeRTOS/FreeRTOS/tasks.c:2752-2764 | Counting a tick, with the list switch at zero, keeps epochs, order and the cached unblock time right, and no one left on a list is overdue |
| `KernelProofs.CountTickKeeps` | EVT/EXAM/FreeRTOS/FreeRTOS/tasks.c:2736-2846 | A tick that first compares with `xNextTaskUnblockTime` readies exactly the tasks due at that tick, as if the whole list were scanned on every tick, and keeps the invariant |
| `KernelGuarantee.TickAsksForSwitch` | EVT/EXAM/FreeRTOS/FreeRTOS/tasks.c:2815-2887 | `xTaskIncrementTick` asks for a switch if and only if a task it readied has at least the running task's priority, or a peer of the running task is ready, or a yield was held back |
| `KernelGuarantee.StepKeepsGuarantee` | EVT/EXAM/FreeRTOS/FreeRTOS/tasks.c:3183-3248 | Each step that is not a mutex operation keeps: a yield is pending or requested, or no ready task outranks the running one |
| `KernelGuarantee.HighestPriorityRuns` | EVT/EXAM/FreeRTOS/FreeRTOS/tasks.c:3021-3094 | In every run in which no mutex operation forgets a yield, whenever no yield is pending or requested the running task has at least the priority of every ready task |
| `KernelGuarantee.MutexFreeIsHarmless` | EVT/EXAM/FreeRTOS/FreeRTOS/tasks.c:3021-3094 | Runs without mutex operations (delays, queues, semaphores, notifications, event groups, suspension, priority changes) are such runs |
| `KernelGuarantee.HarmlessKeepsGuarantee` | EVT/EXAM/FreeRTOS/FreeRTOS/tasks.c:4074-4343 | Every step keeps the guarantee, mutex operations included, but for a give that forgets its yield and a time-out that raises the holder |
| `KernelGuarantee.AfterTimeoutKeepsGuaranteeIff` | EVT/EXAM/FreeRTOS/FreeRTOS/tasks.c:4244-4343 | Adjusting the holder after a time-out keeps the guarantee if and only if a yield was asked for anyway or it does not raise a ready holder above the running task |
| `KernelGuarantee.InheritKeepsGuarantee` | EVT/EXAM/FreeRTOS/FreeRTOS/tasks.c:4074-4157 | Raising a holder to the priority of the task that wants its mutex keeps the guarantee |
| `KernelGuarantee.GiveKeepsGuaranteeIff` | EVT/EXAM/FreeRTOS/FreeRTOS/queue.c:905-933 | Giving a mutex keeps the guarantee if and only if a yield was asked for anyway, or the code does not forget the yield of the lowered giver, or no other ready task outranks the giver's base priority |
| `KernelExamples.GivingCanBreakGuarantee` | EVT/EXAM/FreeRTOS/FreeRTOS/queue.c:905-933 | A concrete sound state in which giving a mutex leaves a higher ready task waiting with no yield asked for |
| `KernelGuarantee.InterruptsLeaveListsAlone` | EVT/EXAM/FreeRTOS/FreeRTOS/tasks.c:3205-3229 | While the scheduler is suspended no interrupt moves a task between state lists, changes a wake time, the tick count or the running task |
| `KernelGuarantee.ResumingMakesUp` | EVT/EXAM/FreeRTOS/FreeRTOS/tasks.c:2220-2329 | The outermost resume counts exactly the held-back ticks, empties the pending-ready list and `xPendedTicks`, and readies exactly the tasks that were pending or whose wake time came in those ticks; nobody else moves |
| `KernelGuarantee.ResumeCanTripNotifyAssert` | EVT/EXAM/FreeRTOS/FreeRTOS/tasks.c:1922-1990 | Resuming from an interrupt keeps the later notify assertion true if and only if the task is not waiting indefinitely for a notification while the scheduler is suspended |
| `KernelExamples.TimingOutCanBreakGuarantee` | EVT/EXAM/FreeRTOS/FreeRTOS/tasks.c:4244-4343 | A concrete sound state in which a time-out raises the holder above the running task with no yield asked for |
| `KernelExamples.ResumingTripsNotifyAssert` | EVT/EXAM/FreeRTOS/FreeRTOS/tasks.c:1922-1990 | A concrete sound state in which an interrupt resumes a task that waits for a notification, after which notifying it fails an assertion |
| `KernelExamples.BlockingTripsSwitchAssert` | EVT/EXAM/FreeRTOS/FreeRTOS/tasks.c:5347-5379 | A concrete sound state in which a block of no ticks leaves a task on the delayed list when the count wraps |
| `KernelEffects.RemoveWakesHead` | EVT/EXAM/FreeRTOS/FreeRTOS/tasks.c:3183-3248 | The first waiter, and only it, leaves the event list; it is ready at once or held pending while the scheduler is suspended; outranking the running task leaves a yield pending |
| `KernelEffects.RemoveUnorderedWakes` | EVT/EXAM/FreeRTOS/FreeRTOS/tasks.c:3251-3297 | The given waiter, wherever it stands, leaves its event list and is ready; the others on the lists stay and nobody else moves; outranking the running task leaves a yield pending |
| `KernelEffects.ReadiedIsLast` | EVT/EXAM/FreeRTOS/FreeRTOS/tasks.c:221-225 | A task made ready stands at the end of the ready list of its priority, so by `InsertedLastIsPickedLast` it runs after its equals |
| `KernelEffects.NotifyWakes` | EVT/EXAM/FreeRTOS/FreeRTOS/tasks.c:4862-5117 | A notification is always recorded, and wakes the task if and only if it waits for one |
| `KernelEffects.SuspendMeans` | EVT/EXAM/FreeRTOS/FreeRTOS/tasks.c:1716-1766 | A suspended task is off every event list, not ready and waits for no notification; nobody else moves |
| `KernelEffects.SuspendThenResume` | EVT/EXAM/FreeRTOS/FreeRTOS/tasks.c:1868-1914 | Suspending another task and resuming it makes it ready at its priority wherever it was, and asks for a switch if it may run |
| `KernelEffects.ResumeMeans` | EVT/EXAM/FreeRTOS/FreeRTOS/tasks.c:1868-1914 | Resuming readies a task if and only if it is suspended and not running, and then asks for a switch if it may run; otherwise nothing changes |
| `KernelEffects.ResumeFromISRMeans` | EVT/EXAM/FreeRTOS/FreeRTOS/tasks.c:1922-1990 | From an interrupt a suspended task is ready at once, or held pending while the scheduler is suspended; any other task is left as it is |
| `KernelEffects.AbortUndoesWaiting` | EVT/EXAM/FreeRTOS/FreeRTOS/tasks.c:2658-2731 | After any way of waiting (for a time, on an event list or for a notification, also for ever) aborting the delay readies the task and takes it off its event list |
| `KernelEffects.AbortLeavesSuspended` | EVT/EXAM/FreeRTOS/FreeRTOS/tasks.c:2658-2731 | Aborting the delay of a suspended or a ready task changes nothing |
| `KernelEffects.TickInterruptRequests` | EVT/EXAM/FreeRTOS/FreeRTOS/tasks.c:2815-2906 | A tick interrupt asks for a switch if and only if the scheduler runs and the tick readies a task that may run, or a peer of the running task is ready, or a yield was held back (or one was asked for before) |
| `KernelEffects.ResumeRequests` | EVT/EXAM/FreeRTOS/FreeRTOS/tasks.c:2300-2329 | Resuming asks for a switch if and only if it is the outermost one and a yield is pending then; an inner one only counts down |
| `KernelEffects.PendingMayRun` | EVT/EXAM/FreeRTOS/FreeRTOS/tasks.c:2244-2262 | A yield is pending then if any task that was held pending may run |
| `KernelEffects.SuspensionsNest` | EVT/EXAM/FreeRTOS/FreeRTOS/tasks.c:2136-2329 | An inner suspension with its resume changes nothing, and neither does an outermost one during which nothing happens, unless a yield was pending |
| `KernelEffects.ResetIsExact` | EVT/EXAM/FreeRTOS/FreeRTOS/tasks.c:4006-4024 | Computed afresh, the cached unblock time is the least wake time on the delayed list, or the maximum if that is empty |
| `KernelEffects.PrioritySetMeans` | EVT/EXAM/FreeRTOS/FreeRTOS/tasks.c:1550-1709 | The base priority is set; the priority in use follows unless it is inherited; a ready task is in the list of the priority in use; nobody else changes; raising another task to the running one's priority, or lowering the running one, asks for a switch |
| `KernelEffects.InheritMeans` | EVT/EXAM/FreeRTOS/FreeRTOS/tasks.c:4074-4157 | The holder gets the greater of its own and the waiting task's priority, in the right ready list, with its base unchanged; nobody else changes |
| `KernelEffects.AfterTimeoutMeans` | EVT/EXAM/FreeRTOS/FreeRTOS/tasks.c:4244-4343 | The holder of exactly one mutex, unless it is the running task, gets exactly the greater of its base priority and the highest remaining waiter, in the right ready list if it is ready; a holder of several, and everyone else, stays as it is |
| `KernelEffects.GiveMeans` | EVT/EXAM/FreeRTOS/FreeRTOS/queue.c:905-933 | Giving a mutex: the giver holds one less and with its last one is back at its base priority; the first waiter leaves the list and is ready or held pending, the others stay |
| `KernelEffects.SwitchPicksNext` | EVT/EXAM/FreeRTOS/FreeRTOS/tasks.c:136-151 | A switch runs the next entry of the highest non-empty ready list and advances that list's index by one, so equals take turns |
| `Scheduler.Tasks.MoveTaskToReady` | EVT/EXAM/FreeRTOS/FreeRTOS/tasks.c:221-225 | The state item ends in the ready list of the task's priority and the recorded top priority covers it |
| `Scheduler.Tasks.ResetNextTaskUnblockTime` | EVT/EXAM/FreeRTOS/FreeRTOS/tasks.c:4006-4024 | Refines the cache of `ResetIsExact` |
| `Scheduler.Tasks.SwitchDelayedLists` | EVT/EXAM/FreeRTOS/FreeRTOS/tasks.c:201-213 | The two delayed lists change roles, an overflow is counted and the cache recomputed |
| `Scheduler.Tasks.UnblockExpired` | EVT/EXAM/FreeRTOS/FreeRTOS/tasks.c:2770-2846 | The loop refines `Kernel.Expire`, the function `ExpireIsFullScan` is about, including the switch flag |
| `Scheduler.Tasks.IncrementTick` | EVT/EXAM/FreeRTOS/FreeRTOS/tasks.c:2736-2906 | Refines one counted tick, or one pended tick while the scheduler is suspended, including the return value |
| `Scheduler.Tasks.SysTickHandler` | EVT/EXAM/FreeRTOS/FreeRTOS/portable/GCC/RISC-V/port.c:235-247 | One tick interrupt: count or pend the tick and pend the software interrupt if asked |
| `Scheduler.Tasks.DrainPendingReady` | EVT/EXAM/FreeRTOS/FreeRTOS/tasks.c:2244-2262 | The first loop of resuming: empties the pending-ready list, readies each task, remembers a yield; reports whether there was any |
| `Scheduler.Tasks.CountPendedTicks` | EVT/EXAM/FreeRTOS/FreeRTOS/tasks.c:2282-2299 | The second loop of resuming: counts each held-back tick and remembers a yield |
| `Scheduler.Tasks.SuspendTasks` | EVT/EXAM/FreeRTOS/FreeRTOS/tasks.c:2136-2154 | Suspensions nest |
| `Scheduler.Tasks.ResumeTasks` | EVT/EXAM/FreeRTOS/FreeRTOS/tasks.c:2220-2329 | Refines the resume that `ResumeAllKeepsInv` and `ResumingMakesUp` are about; true if and only if it was the outermost one and a yield is pending |
| `Scheduler.Tasks.SelectHighestPriorityTask` | EVT/EXAM/FreeRTOS/FreeRTOS/tasks.c:136-151 | The loop ends at the first non-empty list from the top down, advances its index and records the priority |
| `Scheduler.Tasks.SwitchTask` | EVT/EXAM/FreeRTOS/FreeRTOS/tasks.c:3021-3094 | While suspended only remembers the yield, otherwise selects and clears it |
| `Scheduler.Tasks.AddCurrentTaskToDelayedList` | EVT/EXAM/FreeRTOS/FreeRTOS/tasks.c:5310-5381 | Refines the block of `BlockMeans`, by wake time in a sorted list, lowering the cached unblock time only for the delayed list of this epoch |
| `Scheduler.Tasks.PlaceOnEventList` | EVT/EXAM/FreeRTOS/FreeRTOS/tasks.c:3097-3178 | Refines the wait of `BlockOnEventMeans`: the event item first, then the state item |
| `Scheduler.Tasks.RemoveTaskFromEventList` | EVT/EXAM/FreeRTOS/FreeRTOS/tasks.c:3183-3248 | Refines the wake of `RemoveWakesHead`; true if and only if the woken task outranks the running one |
| `Scheduler.Tasks.RemoveTaskFromUnorderedEventList` | EVT/EXAM/FreeRTOS/FreeRTOS/tasks.c:3251-3297 | Refines the wake of `RemoveUnorderedWakes` |
| `Scheduler.Tasks.AbortTaskDelay` | EVT/EXAM/FreeRTOS/FreeRTOS/tasks.c:2658-2731 | Refines the abort of `AbortUndoesWaiting`; true if and only if the task was blocked |
| `Scheduler.Tasks.IsTaskBlocked` | EVT/EXAM/FreeRTOS/FreeRTOS/tasks.c:1392-1469 | True if and only if the task is delayed, or in the suspended list but waiting on an event list or for a notification |
| `Scheduler.Tasks.IsTaskSuspended` | EVT/EXAM/FreeRTOS/FreeRTOS/tasks.c:1822-1861 | True if and only if the task is in the suspended list and neither on an event list nor pending |
| `Scheduler.Tasks.ResumeTask` | EVT/EXAM/FreeRTOS/FreeRTOS/tasks.c:1868-1914 | Refines the resume of `ResumeMeans` |
| `Scheduler.Tasks.ResumeTaskFromISR` | EVT/EXAM/FreeRTOS/FreeRTOS/tasks.c:1922-1990 | Refines the resume of `ResumeFromISRMeans`; true if and only if a switch is wanted now |
| `Scheduler.Tasks.WaitForNotification` | EVT/EXAM/FreeRTOS/FreeRTOS/tasks.c:4704-4740 | Refines the wait of `NotifyWaitMeans` |
| `Scheduler.Tasks.NotifyTask` | EVT/EXAM/FreeRTOS/FreeRTOS/tasks.c:4862-4978 | Refines the notification of `NotifyWakes` |
| `Scheduler.Tasks.NotifyTaskFromISR` | EVT/EXAM/FreeRTOS/FreeRTOS/tasks.c:4985-5117 | The same from an interrupt, with the task held pending while the scheduler is suspended |
| `Scheduler.Tasks.SuspendTask` | EVT/EXAM/FreeRTOS/FreeRTOS/tasks.c:1716-1766 | Refines the suspension of `SuspendMeans` |
| `Scheduler.Tasks.SetTaskPriority` | EVT/EXAM/FreeRTOS/FreeRTOS/tasks.c:1550-1709 | Refines the change of `PrioritySetMeans`, and asks for a yield in the same cases |
| `Scheduler.Tasks.PriorityInherit` | EVT/EXAM/FreeRTOS/FreeRTOS/tasks.c:4074-4157 | Refines the inheritance of `InheritMeans`; true if and only if the holder runs at an inherited priority |
| `Scheduler.Tasks.PriorityDisinherit` | EVT/EXAM/FreeRTOS/FreeRTOS/tasks.c:4164-4237 | The held count drops; at the last mutex a boosted task returns to its base priority and ready list, and only then the result is true |
| `Scheduler.Tasks.PriorityDisinheritAfterTimeout` | EVT/EXAM/FreeRTOS/FreeRTOS/tasks.c:4244-4343 | Refines the lowering of `AfterTimeoutMeans`; the two assertions fail if and only if the holder holds none, or is the running task and would change |
| `IntrusiveList.List.constructor` | EVT/EXAM/FreeRTOS/FreeRTOS/list.c:50-72 | An initialised list is a well-formed ring of the end marker alone |
| `IntrusiveList.List.InsertEnd` | EVT/EXAM/FreeRTOS/FreeRTOS/list.c:87-114 | The pointer surgery inserts the item just before the walking index; the index stays on its node |
| `IntrusiveList.List.Insert` | EVT/EXAM/FreeRTOS/FreeRTOS/list.c:117-185 | The item goes behind all values not above its own and before the others, also for `portMAX_DELAY`; the index stays on its node |
| `IntrusiveList.List.FindBefore` | EVT/EXAM/FreeRTOS/FreeRTOS/list.c:137-171 | The insertion scan terminates at the unique insertion point of the value |
| `IntrusiveList.List.Remove` | EVT/EXAM/FreeRTOS/FreeRTOS/list.c:188-214 | The pointer surgery refines the removal that `RemovalKeepsTurns` is about, and the count left is returned |
| `IntrusiveList.List.NextEntry` | EVT/EXAM/FreeRTOS/FreeRTOS/include/list.h:281-292 | The index advances by one, skipping the end marker, and its item is returned |
| `ListModel.RemovalKeepsTurns` | EVT/EXAM/FreeRTOS/FreeRTOS/list.c:188-214 | Removing an item disturbs nobody's turn: the picks of one round are those of the round before with that item left out, wherever the index was |
| `ListModel.InsertionKeepsCursor` | EVT/EXAM/FreeRTOS/FreeRTOS/list.c:117-185 | Insertion by value leaves the walking index on its item, or on the end marker |
| `ListModel.PicksVisitEachOnce` | EVT/EXAM/FreeRTOS/FreeRTOS/include/list.h:281-292 | n successive picks on an unchanged list of n items return each of them exactly once |
| `ListModel.PickIsAt` | EVT/EXAM/FreeRTOS/FreeRTOS/include/list.h:281-292 | The k-th pick is the item k places behind the index, round the ring |
| `ListModel.InsertedLastIsPickedLast` | EVT/EXAM/FreeRTOS/FreeRTOS/list.c:87-114 | An item inserted at the end is picked after every other item once |
| `ListModel.UpperBoundIsUnique` | EVT/EXAM/FreeRTOS/FreeRTOS/list.c:137-171 | In a sorted list only one position is behind all values not above the new one and before all greater ones |
| `ListModel.InsertSortedPosition` | EVT/EXAM/FreeRTOS/FreeRTOS/list.c:117-185 | Equal values keep their order of insertion: everything before the new item is not above it, everything behind is above it |
| `ListModel.InsertSortedKeepsSorted` | EVT/EXAM/FreeRTOS/FreeRTOS/list.c:117-185 | Insertion by value keeps a list sorted |
| `ListModel.InsertSortedAdds` | EVT/EXAM/FreeRTOS/FreeRTOS/list.c:117-185 | Insertion adds exactly the new item and loses none |
| `ItemLists.UnlinkKeeps` | EVT/EXAM/FreeRTOS/FreeRTOS/list.c:188-214 | Removing an item keeps container pointers and lists in agreement; its list loses exactly that item, its index as in `RemovalKeepsTurns`, and no other list changes |
| `ItemLists.InsertAtKeeps` | EVT/EXAM/FreeRTOS/FreeRTOS/list.c:117-185 | Inserting an item that is in no list keeps container pointers and lists in agreement |
| `ItemLists.AppendKeeps` | EVT/EXAM/FreeRTOS/FreeRTOS/list.c:87-114 | The same for insertion at the end |
| `QueueProtocol.NoWakeupIsLost` | EVT/EXAM/FreeRTOS/FreeRTOS/queue.c:826-1013 | In every state of every interleaving of senders, receivers, peekers and interrupts around lock, place and unlock: if a task waits to receive, items waiting ≤ woken receivers that have not run + max(cTxLock, 0), and dually for senders and free slots |
| `QueueProtocol.WaitersWaitForAReason` | EVT/EXAM/FreeRTOS/FreeRTOS/queue.c:1377-1491 | When the woken tasks have run and nobody has the scheduler suspended, tasks wait to receive only on an empty queue and to send only on a full one |
| `QueueProtocol.OverflowIsTheOnlyFailure` | EVT/EXAM/FreeRTOS/FreeRTOS/queue.c:1161-1169 | The lock-count assertion fails if and only if an interrupt operates on a locked queue whose count is already 127 |
| `QueueProtocol.HighestPriorityIsWoken` | EVT/EXAM/FreeRTOS/FreeRTOS/queue.c:2264-2381 | In every run the head of each waiting list is a highest-priority waiter, so wakes go to it, also after time-outs and unlocking |
| `QueueProtocol.PlaceKeeps` | EVT/EXAM/FreeRTOS/FreeRTOS/queue.c:969-986 | A task that found the queue full or empty under the lock may be placed: what happened since the lock is in the lock count |
| `QueueProtocol.UnlockTxKeeps` | EVT/EXAM/FreeRTOS/FreeRTOS/queue.c:2264-2330 | Unlocking the send side turns the lock count into wakes and loses none |
| `QueueProtocol.UnlockRxKeeps` | EVT/EXAM/FreeRTOS/FreeRTOS/queue.c:2332-2381 | The same for the receive side |
| `QueueProtocol.WakeUpToMeans` | EVT/EXAM/FreeRTOS/FreeRTOS/queue.c:2264-2381 | The unlocking loops wake exactly the first tasks of the list, one for each count, or all if there are fewer, and no more |
| `QueueProtocol.LockingOnlyDefers` | EVT/EXAM/FreeRTOS/FreeRTOS/queue.c:2264-2381 | Whatever interrupts come while a queue is locked, in any number and order, after unlocking it is exactly as if it had never been locked, unless a lock count overflowed |
| `QueueProtocol.InterruptMeans` | EVT/EXAM/FreeRTOS/FreeRTOS/queue.c:1017-1181 | On an unlocked queue an interrupt posts if and only if there is room or it overwrites, and fetches if and only if there is an item; it then wakes exactly the first waiter of the other side |
| `QueueProtocol.TryMeans` | EVT/EXAM/FreeRTOS/FreeRTOS/queue.c:826-937 | A task sends, receives or peeks if and only if it can, with the count changed accordingly and the first waiter of the other side taken off its list; otherwise it goes on to wait, or returns if it may not |
| `QueueProtocol.WaitsIfItMust` | EVT/EXAM/FreeRTOS/FreeRTOS/queue.c:962-1012 | Under the lock a task is placed if and only if its operation still cannot be done, and after its time a receiver gives up if and only if that is so; otherwise they try again |
| `QueueProtocol.StaysToWait` | EVT/EXAM/FreeRTOS/FreeRTOS/queue.c:962-1002 | The whole stretch with the queue locked, for a task with time left: it ends on its waiting list if and only if its operation cannot be done now, and tries again otherwise; either way the queue is unlocked, with the wakes due, and the scheduler runs |
| `QueueProtocol.ExpiredLeaves` | EVT/EXAM/FreeRTOS/FreeRTOS/queue.c:1003-1012 | The same for a task whose time is up: the queue is unlocked and the scheduler runs; a sender returns, a receiver looks once more |
| `QueueProtocol.PlaceMeans` | EVT/EXAM/FreeRTOS/FreeRTOS/queue.c:969-986 | Placing puts exactly that task on the list of its operation and on no other |
| `QueueProtocol.DroppedMeans` | EVT/EXAM/FreeRTOS/FreeRTOS/tasks.c:2776-2813 | A time-out takes exactly that task off its list |
| `QueueProtocol.IsrSendKeeps` | EVT/EXAM/FreeRTOS/FreeRTOS/queue.c:1017-1181 | An interrupt's send keeps the invariant, by a wake or by the lock count |
| `QueueProtocol.IsrReceiveKeeps` | EVT/EXAM/FreeRTOS/FreeRTOS/queue.c:1865-1957 | An interrupt's receive keeps the invariant, by a wake or by the lock count |
| `QueueProtocol.PeekKeeps` | EVT/EXAM/FreeRTOS/FreeRTOS/queue.c:1714-1862 | A peek leaves the item and passes the wake on |
| `QueueProtocol.ExpireKeeps` | EVT/EXAM/FreeRTOS/FreeRTOS/tasks.c:2776-2813 | A time-out takes a waiter off its list and loses no wake |
| `QueueProtocol.StepKeepsInv` | EVT/EXAM/FreeRTOS/FreeRTOS/queue.c:805-1014 | Every step keeps the blocking invariant, as long as no lock count overflows |
| `QueueStorage.Storage.CopyDataToQueue` | EVT/EXAM/FreeRTOS/FreeRTOS/queue.c:2160-2240 | Send to back appends, send to front prepends, overwrite replaces the single item; `pcWriteTo` stays `pcReadFrom` advanced by the item count + 1 modulo the storage |
| `QueueStorage.Storage.CopyDataFromQueue` | EVT/EXAM/FreeRTOS/FreeRTOS/queue.c:2243-2261 | The read pointer advances one item, wrapping, and the front item is returned |
| `QueueStorage.Storage.Receive` | EVT/EXAM/FreeRTOS/FreeRTOS/queue.c:1379-1393 | The front item leaves the queue and is returned |
| `QueueStorage.Storage.Peek` | EVT/EXAM/FreeRTOS/FreeRTOS/queue.c:1740-1772 | The front item is returned and the contents and both pointers are as before |
| `QueueStorage.Appended` | EVT/EXAM/FreeRTOS/FreeRTOS/queue.c:2187-2200 | Writing the slot behind the last item appends to the contents read from the ring |
| `QueueStorage.Prepended` | EVT/EXAM/FreeRTOS/FreeRTOS/queue.c:2202-2231 | Writing the slot of the read pointer and stepping it back prepends |
| `QueueStorage.Dropped` | EVT/EXAM/FreeRTOS/FreeRTOS/queue.c:2243-2261 | Advancing the read pointer drops the first item only |
| `Queues.MessageQueue.TrySend` | EVT/EXAM/FreeRTOS/FreeRTOS/queue.c:826-937 | With room (or overwriting) the item is stored in the right place and one receiver woken; otherwise nothing changes |
| `Queues.MessageQueue.TryReceive` | EVT/EXAM/FreeRTOS/FreeRTOS/queue.c:1377-1413 | With an item waiting, the front one is returned and removed and one sender woken; otherwise nothing changes |
| `Queues.MessageQueue.TryPeek` | EVT/EXAM/FreeRTOS/FreeRTOS/queue.c:1740-1778 | With an item waiting, the front one is returned, the contents do not change and one more receiver is woken |
| `Queues.MessageQueue.SendFromISR` | EVT/EXAM/FreeRTOS/FreeRTOS/queue.c:1017-1181 | On an unlocked queue wakes a receiver, on a locked one counts instead, and fails at 127; the items change as for a send |
| `Queues.MessageQueue.ReceiveFromISR` | EVT/EXAM/FreeRTOS/FreeRTOS/queue.c:1865-1957 | Dually for receiving from an interrupt |
| `Queues.MessageQueue.LockQueue` | EVT/EXAM/FreeRTOS/FreeRTOS/queue.c:251-263 | Both lock counts leave the unlocked value; a count already running is kept |
| `Queues.MessageQueue.UnlockTx` | EVT/EXAM/FreeRTOS/FreeRTOS/queue.c:2264-2330 | The loop wakes one receiver per count while any wait, then unlocks |
| `Queues.MessageQueue.UnlockRx` | EVT/EXAM/FreeRTOS/FreeRTOS/queue.c:2332-2381 | The loop wakes one sender per count while any wait, then unlocks |
| `Mutexes.InheritanceHolds` | EVT/EXAM/FreeRTOS/FreeRTOS/queue.c:1619-1709 | In every run where no task blocks on a mutex while holding one: from the moment w blocks on m until m is given or w leaves its waiting list, m keeps its holder and the holder's priority is at least w's, whoever else times out and whatever else the holder holds |
| `Mutexes.AccountsBalance` | EVT/EXAM/FreeRTOS/FreeRTOS/queue.c:1533-1554 | In every run: a mutex has a holder if and only if its count is 0, `uxMutexesHeld` is the number of mutexes naming the task, a task holding none runs at its base priority |
| `Mutexes.BlockKeepsInheritedIff` | EVT/EXAM/FreeRTOS/FreeRTOS/tasks.c:4074-4157 | Without the no-nesting assumption: blocking keeps inheritance for all waiters if and only if the boosted holder is not itself waiting behind a lower task |
| `Mutexes.NestingBreaksInheritance` | EVT/EXAM/FreeRTOS/FreeRTOS/tasks.c:4074-4157 | A concrete state in which nested blocking leaves a waiter's holder at a lower priority |
| `Mutexes.DepthIsBalance` | EVT/EXAM/FreeRTOS/FreeRTOS/queue.c:693-729 | While a task keeps a recursive mutex its recursion depth is its takes minus its gives, and positive |
| `Mutexes.ReleasedWhenBalanced` | EVT/EXAM/FreeRTOS/FreeRTOS/queue.c:638-686 | A recursive mutex is released exactly by the give that makes gives equal takes |
| `Mutexes.FailsExactly` | EVT/EXAM/FreeRTOS/FreeRTOS/queue.c:1577-1692 | The two assertions on the way out of `xQueueSemaphoreTake` fail if and only if: a task that was reported to have passed on its priority gives up a mutex that it holds itself, as its only one, and would change its own priority; or such a task finds the mutex taken on its last try, with no time left |
| `Mutexes.OnlyTheLastTryFails` | EVT/EXAM/FreeRTOS/FreeRTOS/queue.c:1577-1592 | In every run in which no task blocks on a mutex it holds, the first of them never fails, and the second fails exactly as said |
| `Mutexes.NestingIncludesOwn` | EVT/EXAM/FreeRTOS/FreeRTOS/queue.c:1619-1652 | Runs without nested blocking are such runs |
| `Mutexes.BlockingOnOwnFails` | EVT/EXAM/FreeRTOS/FreeRTOS/tasks.c:4276-4284 | A run from all mutexes free in which a task blocks on a mutex it holds and the assertion that it does not lower itself fails |
| `Mutexes.TheLastTryFails` | EVT/EXAM/FreeRTOS/FreeRTOS/queue.c:1577-1592 | A run from all mutexes free, without nested blocking, in which the assertion that no inheritance occurred fails |
| `Mutexes.HolderHolds` | EVT/EXAM/FreeRTOS/FreeRTOS/tasks.c:4253-4255 | Whoever a mutex names as holder has a positive held count, so the assertion on it never fails |
| `Mutexes.StepKeepsInv` | EVT/EXAM/FreeRTOS/FreeRTOS/queue.c:1495-1711 | Every take, give, block, time-out and give-up without nesting keeps accounting and inheritance |
| `Mutexes.GiveKeepsInv` | EVT/EXAM/FreeRTOS/FreeRTOS/queue.c:2171-2187 | Giving keeps the invariant for the other mutexes the giver holds: it is lowered only with its last one |
| `Mutexes.GiveUpKeepsInv` | EVT/EXAM/FreeRTOS/FreeRTOS/queue.c:2135-2155 | Lowering the holder after a time-out never lowers it below a waiter it inherited from, whoever times out and whoever the holder is by then |
| `Mutexes.BlockSettles` | EVT/EXAM/FreeRTOS/FreeRTOS/queue.c:1619-1652 | Blocking gives the holder exactly the greater of its own and the blocker's priority and changes no other; the blocker is on the waiting list, and remembers an inheritance if and only if the holder's base priority is below its own |
| `Mutexes.GiveSettles` | EVT/EXAM/FreeRTOS/FreeRTOS/queue.c:2171-2187 | Giving frees the mutex and wakes exactly the first waiter, which keeps what it knows of its inheritance; the others wait on, in order |
| `Mutexes.ExpireSettles` | EVT/EXAM/FreeRTOS/FreeRTOS/tasks.c:2776-2813 | A time-out takes exactly that task off the waiting list; priorities stay until it runs |
| `Mutexes.GiveUpSettles` | EVT/EXAM/FreeRTOS/FreeRTOS/queue.c:2135-2155 | Giving up after an inheritance leaves the holder of only that mutex at exactly the greatest of its base priority and the priorities of all tasks still waiting (for a list in order of priority, as `StepKeepsInv` keeps it); a holder of several mutexes, and everyone else, stays as it is |
| `Mutexes.InheritAgrees` | EVT/EXAM/FreeRTOS/FreeRTOS/tasks.c:4074-4157 | The boost used here is what `Kernel.Inherit` does to priorities |
| `Mutexes.AfterTimeoutAgrees` | EVT/EXAM/FreeRTOS/FreeRTOS/tasks.c:4244-4343 | The lowering used here is what `Kernel.DisinheritAfterTimeout` does to priorities; `AfterTimeoutMeans` and `GiveUpSettles` say what that is |
| `Mutexes.TakeAgrees` | EVT/EXAM/FreeRTOS/FreeRTOS/tasks.c:4687-4697 | The count used here is what `Kernel.TakeMutex` does |
| `Mutexes.GiveAgrees` | EVT/EXAM/FreeRTOS/FreeRTOS/tasks.c:4164-4237 | The disinheritance used here is what `Kernel.Disinherit` does to priorities and counts |
| `Timers.ClassifyIsExact` | EVT/EXAM/FreeRTOS/FreeRTOS/timers.c:711-752 | For a command less than 2^32 ticks ago, the 32-bit comparisons call the timer late if and only if command time + period ≤ now as unbounded integers, and otherwise choose the list of the epoch of the true expiry |
| `Timers.FirstAfter` | EVT/EXAM/FreeRTOS/FreeRTOS/timers.c:517-533 | floor((now − e) / period) is the last missed expiry and one more is the first after now |
| `Timers.ReloadIsExact` | EVT/EXAM/FreeRTOS/FreeRTOS/timers.c:517-533 | From a real expiry e ≤ now, reloading runs the callback floor((now − e) / period) times and files the timer at the first e + k·period after now, in the right list |
| `Timers.ProcessExpiredKeeps` | EVT/EXAM/FreeRTOS/FreeRTOS/timers.c:536-560 | Processing an expired head runs the callback once for every expiry up to now, reschedules or deactivates the timer, moves no other timer and keeps the daemon's invariant |
| `Timers.DrainShrinks` | EVT/EXAM/FreeRTOS/FreeRTOS/timers.c:903-925 | Draining takes exactly the head off the current list each time: a reloaded timer never goes back to the list being drained, so the switch terminates |
| `Timers.SampleKeeps` | EVT/EXAM/FreeRTOS/FreeRTOS/timers.c:688-708 | Sampling less than 2^32 ticks after the last time switches the lists if and only if the epoch changed, and keeps the invariant |
| `Timers.WokenHead` | EVT/EXAM/FreeRTOS/FreeRTOS/timers.c:599-658 | Comparing the head's 32-bit value with the tick count tells whether its real expiry has come |
| `Timers.ObeyKeeps` | EVT/EXAM/FreeRTOS/FreeRTOS/timers.c:755-900 | Every command leaves both lists sorted, in their epochs, with active set if and only if listed |
| `Timers.InitialIsGood` | EVT/EXAM/FreeRTOS/FreeRTOS/timers.c:928-956 | Before any timer is started the daemon's invariant holds; all runs start there |
| `Timers.CreateKeeps` | EVT/EXAM/FreeRTOS/FreeRTOS/timers.c:355-382 | Creating a timer, inactive, keeps the daemon's invariant |
| `Timers.StepKeepsGood` | EVT/EXAM/FreeRTOS/FreeRTOS/timers.c:599-658 | Every round and every command of the daemon keeps the invariant |
| `Timers.DaemonIsSound` | EVT/EXAM/FreeRTOS/FreeRTOS/timers.c:755-925 | At every head of the daemon's loop, in every run: both lists sorted and of their epochs, a timer active if and only if listed, next expiry = start + (fires + 1)·period |
| `Timers.NoDrift` | EVT/EXAM/FreeRTOS/FreeRTOS/timers.c:517-560 | That equation spelled out for one timer of any reachable state, across tick overflow |
| `Timers.NeverEarly` | EVT/EXAM/FreeRTOS/FreeRTOS/timers.c:536-658 | In one round no timer's callback runs for an expiry that is still to come, also when the lists are drained and switched |
| `Timers.RoundProcessesTheHead` | EVT/EXAM/FreeRTOS/FreeRTOS/timers.c:599-658 | In a round in which the count has not wrapped, an expired head runs its callback once for every expiry up to now and is filed for the first one after, or deactivated; every other timer is as it was; and if the head is not due nothing happens |
| `Timers.RoundCatchesUp` | EVT/EXAM/FreeRTOS/FreeRTOS/timers.c:903-925 | When the count has wrapped, every timer of the old epoch runs its callback once for every expiry up to the end of that epoch and is filed for the first one after, or deactivated; every other timer is as it was |
| `Timers.NothingIsDue` | EVT/EXAM/FreeRTOS/FreeRTOS/timers.c:599-658 | If the count has not wrapped and the head is not due, no active timer is due |
| `Timers.ObeyMeans` | EVT/EXAM/FreeRTOS/FreeRTOS/timers.c:755-900 | Stopping deactivates the timer; changing the period starts it now with the new one; starting files it one period after the command or, if that has passed, runs the callback for every expiry up to now and files it for the next one, or deactivates a one-shot; no other timer changes |
| `Timers.UnlistMeans` | EVT/EXAM/FreeRTOS/FreeRTOS/timers.c:785-802 | Before a command the timer is taken off whichever list it is on, and nothing else is |
| `TimerTask.TimerService.InsertTimerInActiveList` | EVT/EXAM/FreeRTOS/FreeRTOS/timers.c:711-752 | Refines the insertion that `ClassifyIsExact` is about, including the return value |
| `TimerTask.TimerService.ReloadTimer` | EVT/EXAM/FreeRTOS/FreeRTOS/timers.c:517-533 | The loop refines the reload of `ReloadIsExact` and terminates |
| `TimerTask.TimerService.ProcessExpiredTimer` | EVT/EXAM/FreeRTOS/FreeRTOS/timers.c:536-560 | Refines the processing of `ProcessExpiredKeeps` |
| `TimerTask.TimerService.SwitchTimerLists` | EVT/EXAM/FreeRTOS/FreeRTOS/timers.c:903-925 | The loop drains the current list, then the lists change places |
| `TimerTask.TimerService.SampleTimeNow` | EVT/EXAM/FreeRTOS/FreeRTOS/timers.c:688-708 | Refines the sampling of `SampleKeeps` and records the sample |
| `TimerTask.TimerService.ProcessTimerOrBlockTask` | EVT/EXAM/FreeRTOS/FreeRTOS/timers.c:599-658 | Refines the round of `RoundProcessesTheHead` and `RoundCatchesUp`; it blocks if and only if the count has not wrapped and no head is due, no active timer is due then, and it blocks for exactly the ticks to the next real expiry, or until the next wrap, or indefinitely when no timer is active |
| `TimerTask.TimerService.StartTimer` | EVT/EXAM/FreeRTOS/FreeRTOS/timers.c:805-848 | Refines the start and reset of `ObeyMeans`, with the catch-up of a late one |
| `TimerTask.TimerService.InitialiseNewTimer` | EVT/EXAM/FreeRTOS/FreeRTOS/timers.c:355-382 | A new timer has its period and reload mode and is not active |
| `TimerTask.TimerService.ProcessCommand` | EVT/EXAM/FreeRTOS/FreeRTOS/timers.c:755-900 | Refines one command of the runs of `DaemonIsSound`, whose effect `ObeyMeans` states |
| `StreamBuffer.UsedPlusSpace` | EVT/EXAM/FreeRTOS/FreeRTOS/stream_buffer.c:497-527 | Bytes used + space reported = xLength − 1, and the used count is the one distance from tail to head |
| `StreamBuffer.BytesInBuffer32IsRightIff` | EVT/EXAM/FreeRTOS/FreeRTOS/stream_buffer.c:1231-1249 | The 32-bit byte count is right for all heads and tails if and only if twice the length does not exceed 2^32 |
| `StreamBuffer.LengthRoundTrip` | EVT/EXAM/FreeRTOS/FreeRTOS/stream_buffer.c:724-741 | A stored message length reads back as it was |
| `StreamBuffer.ContentsStay` | EVT/EXAM/FreeRTOS/FreeRTOS/stream_buffer.c:1141-1184 | Writing behind the head changes no byte between tail and head |
| `StreamBuffer.Published` | EVT/EXAM/FreeRTOS/FreeRTOS/stream_buffer.c:724-764 | Moving the head over the bytes written appends exactly those bytes to the contents |
| `StreamBuffer.Buffer.WriteBytes` | EVT/EXAM/FreeRTOS/FreeRTOS/stream_buffer.c:1141-1184 | One or two copies write the data round the ring and nothing else; the new head is returned, not published |
| `StreamBuffer.Buffer.ReadBytes` | EVT/EXAM/FreeRTOS/FreeRTOS/stream_buffer.c:1187-1228 | One or two copies return the bytes round the ring |
| `StreamBuffer.Buffer.WriteMessage` | EVT/EXAM/FreeRTOS/FreeRTOS/stream_buffer.c:724-764 | A message is appended whole with its length or not at all, a stream as far as it fits; the count accepted is returned |
| `StreamBuffer.Buffer.ReadMessage` | EVT/EXAM/FreeRTOS/FreeRTOS/stream_buffer.c:968-1017 | The message (or stream bytes) at the front is returned and removed; a message too long for the caller stays with its length in place |
| `StreamBuffer.AcceptedIsMost` | EVT/EXAM/FreeRTOS/FreeRTOS/stream_buffer.c:724-764 | Of a message all is accepted or nothing, all if and only if it fits with its length (or is empty); of a stream as much as fits |
| `StreamBuffer.DeliveredIsMost` | EVT/EXAM/FreeRTOS/FreeRTOS/stream_buffer.c:968-1017 | Of a message all is delivered or nothing, all if and only if it fits the caller's buffer; of a stream as much as there is and fits |
| `MessageFlow.ParseFrames` | EVT/EXAM/FreeRTOS/FreeRTOS/stream_buffer.c:724-764 | Whole length-prefixed non-empty messages decode to exactly those messages |
| `MessageFlow.DecideKeeps` | EVT/EXAM/FreeRTOS/FreeRTOS/stream_buffer.c:968-1000 | Under any interleaving the reader takes the next message whole, or leaves it if and only if its buffer is too small |
| `MessageFlow.SendBeginsIff` | EVT/EXAM/FreeRTOS/FreeRTOS/stream_buffer.c:542-670 | The writer begins a message if and only if it fits with its length beside the bytes in the buffer |
| `MessageFlow.ReceiveBeginsIff` | EVT/EXAM/FreeRTOS/FreeRTOS/stream_buffer.c:767-868 | The reader begins if and only if there is a message it has not received |
| `MessageFlow.EndsMean` | EVT/EXAM/FreeRTOS/FreeRTOS/stream_buffer.c:724-764 | A finished copy publishes exactly the message (unless it is empty), and a finished read delivers exactly the next one |
| `MessageFlow.StepKeepsInv` | EVT/EXAM/FreeRTOS/FreeRTOS/stream_buffer.c:542-670 | Every byte copied, every publication and every consumption keeps the interleaving invariant |
| `MessageFlow.MessagesKeepTheirBoundaries` | EVT/EXAM/FreeRTOS/FreeRTOS/stream_buffer.c:767-868 | At every point of every interleaving of one writer and one reader: received messages are the first of those sent, unchanged and in order; the bytes from tail to head decode to exactly the others; used + space = xLength − 1 |
| `Handshake.NoWakeupIsLost` | EVT/EXAM/FreeRTOS/FreeRTOS/stream_buffer.c:57-129 | In every interleaving of waiter and supplier: a blocked waiter with the supplier idle lacks what it needs or the trigger level is not reached, and the assertion that nobody else is registered never fails |
| `Handshake.SupplyWakes` | EVT/EXAM/FreeRTOS/FreeRTOS/stream_buffer.c:57-129 | A supply that reaches the trigger level ends the wait and leaves the task unregistered; one that does not leaves it blocked |
| `Handshake.OnlySupplyWakes` | EVT/EXAM/FreeRTOS/FreeRTOS/stream_buffer.c:57-129 | Only such a supply or a time-out ends a wait |
| `Handshake.RegistersIff` | EVT/EXAM/FreeRTOS/FreeRTOS/stream_buffer.c:795-833 | A task registers if and only if there is less than it needs, with its notification state cleared, and then blocks if and only if it was not notified since |
| `EventGroups.NeverStranded` | EVT/EXAM/FreeRTOS/FreeRTOS/event_groups.c:533-625 | In every state of every run of set, clear, wait, sync, time-out and resume no blocked waiter's condition holds on the current bits |
| `EventGroups.WokenAreTheSatisfied` | EVT/EXAM/FreeRTOS/FreeRTOS/event_groups.c:559-612 | Setting bits wakes exactly the waiters satisfied by old∪new and keeps exactly the others, each as often as it was there |
| `EventGroups.ClearMaskIsUnion` | EVT/EXAM/FreeRTOS/FreeRTOS/event_groups.c:590-617 | A bit is cleared afterwards if and only if some woken waiter with clear-on-exit waited for it |
| `EventGroups.OrderDoesNotMatter` | EVT/EXAM/FreeRTOS/FreeRTOS/event_groups.c:559-617 | For any reordering of the waiters the same ones are woken and the same bits cleared |
| `EventGroups.SetMeans` | EVT/EXAM/FreeRTOS/FreeRTOS/event_groups.c:533-625 | After setting, a bit is set if and only if it was set or is set now and no satisfied waiter with clear-on-exit waited for it; exactly the waiters not satisfied wait on |
| `EventGroups.ConditionMeans` | EVT/EXAM/FreeRTOS/FreeRTOS/event_groups.c:692-726 | The wait condition holds if and only if all, or any, of the bits waited for are set |
| `EventGroups.ClearMeans` | EVT/EXAM/FreeRTOS/FreeRTOS/event_groups.c:473-498 | Clearing clears exactly the given bits and wakes nobody |
| `EventGroups.WaitMeans` | EVT/EXAM/FreeRTOS/FreeRTOS/event_groups.c:317-421 | A wait returns the bits at once if and only if the condition holds or no time is given, clearing exactly its bits in the first case if asked to; otherwise the task is last on the list, with a word that is satisfied exactly when its condition holds |
| `EventGroups.SyncMeans` | EVT/EXAM/FreeRTOS/FreeRTOS/event_groups.c:194-262 | A rendezvous sets its bits as in `SetMeans`; if then all are there it returns the old and new bits and exactly those waited for are cleared, else it returns the bits of now or waits for all of them, to clear them |
| `EventGroups.ExpireMeans` | EVT/EXAM/FreeRTOS/FreeRTOS/tasks.c:2810-2818 | A time-out takes one waiter off the list and leaves bits and other waiters, in order |
| `EventGroups.ResumeMeans` | EVT/EXAM/FreeRTOS/FreeRTOS/event_groups.c:424-470 | A task that timed out returns the bits of now and clears exactly those it waits for, if its condition holds by now and it asks for that |
| `EventGroups.BlockWordMeaning` | EVT/EXAM/FreeRTOS/FreeRTOS/event_groups.c:372-397 | Packing bits and options in one word loses nothing and does not look like a wake |
| `EventGroups.WokenTaskSeesItsBits` | EVT/EXAM/FreeRTOS/FreeRTOS/event_groups.c:424-462 | A woken task returns old∪new, for which its condition holds, and changes nothing more, whatever happened to the group since |
| `EventGroups.TimedOutTaskSeesCurrentBits` | EVT/EXAM/FreeRTOS/FreeRTOS/event_groups.c:424-462 | A task that timed out is not taken for a woken one and returns the bits of now |
| `EventGroups.StepKeepsInv` | EVT/EXAM/FreeRTOS/FreeRTOS/event_groups.c:194-498 | Every operation keeps: no waiter is satisfied, and control bits stay out of the event bits |
| `EventGroups.Matches` | EVT/EXAM/FreeRTOS/FreeRTOS/event_groups.c:692-726 | The test on the packed word is the wait condition on its bits and options |
| `EventGroups.EventGroup.SetBits` | EVT/EXAM/FreeRTOS/FreeRTOS/event_groups.c:533-625 | The walk that unlinks as it goes refines the setting of `SetMeans`, hands each woken waiter the bits at that moment and returns the bits left |
| `EventGroups.EventGroup.ClearBits` | EVT/EXAM/FreeRTOS/FreeRTOS/event_groups.c:473-498 | Refines the clearing of `ClearMeans` and returns the bits before |
| `EventGroups.EventGroup.WaitBits` | EVT/EXAM/FreeRTOS/FreeRTOS/event_groups.c:317-421 | Refines the wait of `WaitMeans`, up to the point where the task blocks or returns |
| `EventGroups.EventGroup.Sync` | EVT/EXAM/FreeRTOS/FreeRTOS/event_groups.c:212-262 | Refines the rendezvous of `SyncMeans` |
| `EventGroups.EventGroup.Resume` | EVT/EXAM/FreeRTOS/FreeRTOS/event_groups.c:420-470 | After waiting: the answer left by the waker, or after a time-out the current bits, cleared if they are right by now |
| `Timeouts.CheckIsExactIff` | EVT/EXAM/FreeRTOS/FreeRTOS/tasks.c:3320-3382 | The time-out verdict is right in real time if and only if it is not the case that the count wrapped twice or more, is below its value on entry and shows less than the block time |
| `Timeouts.TwoWrapsAreConfusing` | EVT/EXAM/FreeRTOS/FreeRTOS/tasks.c:3320-3382 | A concrete wait of 20 ticks that is said to have 5 left after 2^32 + 15 |
| `Timeouts.DeadlineIsConserved` | EVT/EXAM/FreeRTOS/FreeRTOS/tasks.c:3320-3382 | Less than 2^32 ticks after entry: the remaining ticks end at the original deadline exactly, or the deadline has passed |
| `Timeouts.TimeOut.CheckForTimeOut` | EVT/EXAM/FreeRTOS/FreeRTOS/tasks.c:3320-3382 | Times out if and only if the deadline has passed (or the delay was aborted); otherwise keeps the deadline; an indefinite wait never times out |
| `Timeouts.DelaysUntilNextWake` | EVT/EXAM/FreeRTOS/FreeRTOS/tasks.c:1260-1339 | Called less than 2^32 ticks after the previous wake time, a periodic task delays if and only if the next one is still to come, and for exactly the ticks left |
| `Ticks.EpochAfter` | EVT/EXAM/FreeRTOS/FreeRTOS/tasks.c:5347-5379 | A sum of a time and a 32-bit delay crosses at most one overflow, exactly when the 32-bit sum is below the time |
| `Ticks.WrapOfDifference` | EVT/EXAM/FreeRTOS/FreeRTOS/tasks.c:3320-3382 | 32-bit subtraction of times less than 2^32 apart is exact |
| `Calendar.SetThenGet` | EVT/EXAM/RTC/User/main.c:258-397 | For every valid date and time of 1970 to 2099: the second count fits 32 bits, decoding it gives the date and time back, and the week day is right |
| `Calendar.GetThenSet` | EVT/EXAM/RTC/User/main.c:341-397 | For every counter value, encoding the decoded date and time gives the counter back |
| `Calendar.DateOfIsTheDate` | EVT/EXAM/RTC/User/main.c:349-387 | A valid date has day number n if and only if it is the date decoded from n |
| `Calendar.DayNumberIsInjective` | EVT/EXAM/RTC/User/main.c:258-288 | Different valid dates have different day numbers |
| `Calendar.WeekIsDayNumberModSeven` | EVT/EXAM/RTC/User/main.c:408-423 | The week formula equals (day number + 4) mod 7 if and only if the date is before 1 January 2100 |
| `Calendar.SetThenRead` | EVT/EXAM/RTC/User/main.c:258-397 | The code's own round trip: after setting a valid date and time of 1970 to 2099 and reading, time is right, and the cached date is the one set if and only if the cache was current before or the day is not 1 January 1970; the week is then right too |
| `Calendar.FirstDayIsNotSeen` | EVT/EXAM/RTC/User/main.c:341-397 | After reset, setting 1 January 1970 and reading leaves the date 0/0/0 |
| `Calendar.Rtc.Set` | EVT/EXAM/RTC/User/main.c:258-288 | Rejects years outside 1970 to 2099, leaving the counter; otherwise the counter is the second count of the arguments modulo 2^32, also for days and times out of range; the month table is indexed in range if and only if the month is 1 to 13 |
| `Calendar.Rtc.AddMonths` | EVT/EXAM/RTC/User/main.c:270-277 | The month loop adds the days of whole months, with the leap day, without 32-bit overflow |
| `Calendar.Rtc.AddDayAndTime` | EVT/EXAM/RTC/User/main.c:278-282 | The last four wrapping additions are one addition modulo 2^32, also for day 0 |
| `Calendar.Rtc.Get` | EVT/EXAM/RTC/User/main.c:341-397 | The cached date is the decoding of `daycnt` once a non-zero day has been read; time of day and week are right; the week table is indexed in range exactly then |
| `Calendar.Rtc.RefreshDate` | EVT/EXAM/RTC/User/main.c:349-390 | The cached date changes only when the day does, and is then the decoding of the new day |
| `Calendar.Rtc.TakeYears` | EVT/EXAM/RTC/User/main.c:352-367 | Subtracting whole years ends at the year the day lies in, without 16-bit overflow |
| `Calendar.Rtc.TakeMonths` | EVT/EXAM/RTC/User/main.c:369-388 | Subtracting whole months ends at the month the day lies in, never past December |
| `Calendar.Rtc.GetWeek` | EVT/EXAM/RTC/User/main.c:408-423 | The 8- and 16-bit week arithmetic computes the week formula; always below 7 |

## Left out

- `KernelSteps.StepKeepsInv`: assumes what `Allowed` says: the idle task neither blocks nor is suspended, and no zero-length finite block falls on the last tick before the count wraps.
- `KernelTheorems.NoTickIsLost`: ticks lost when the 32-bit `xPendedTicks` wraps are counted in `dropped`; `DropsExactly` says when that happens. The overflow count and the suspension depth are unbounded, where the code wraps them at 32 bits.
- `KernelGuarantee.HighestPriorityRuns`: for runs without the two harmful cases of mutexes, whose exact conditions are `GiveKeepsGuaranteeIff` and `AfterTimeoutKeepsGuaranteeIff`.
- `Scheduler.Tasks.PlaceOnEventList`: the position in the event list is a parameter; `QueueProtocol.HighestPriorityIsWoken` has the order by priority, for priorities that do not change while a task waits.
- `Mutexes.InheritanceHolds`: assumes that no task blocks on a mutex while it holds one and that base priorities do not change; a waiter that was queued before the present holder took the mutex is not covered, as the code does not boost for it.
- `Mutexes.StepKeepsInv`: event items always show the current priority of their task (15 minus it); the list is not re-sorted, as in the code.
- `QueueProtocol.NoWakeupIsLost`: up to the first lock-count overflow, whose exact condition is `OverflowIsTheOnlyFailure`; task priorities do not change, no queue is reset and no task deleted while it waits.
- `Scheduler.Tasks.WaitForNotification`: notification states only; values and clear masks are left out.
- `Scheduler.Tasks.NotifyTask`: notification states only; values and actions are left out.
- `Scheduler.Tasks.NotifyTaskFromISR`: notification states only; values and actions are left out.
- `Queues.MessageQueue.ReceiveFromISR`: `pxHigherPriorityTaskWoken` is left out, as for sending.
- `Queues.MessageQueue.SendFromISR`: `pxHigherPriorityTaskWoken` is left out; `Scheduler.Tasks.RemoveTaskFromEventList` has the comparison it reports.
- `Timers.DaemonIsSound`: the daemon samples the count less than 2^32 ticks apart, and commands are processed less than 2^32 ticks after they were sent; a command that arrives after the sample was taken cannot carry a later time.
- `Timers.NeverEarly`: for rounds; callbacks run by commands are covered by `ObeyMeans` and `DaemonIsSound`.
- `Handshake.NoWakeupIsLost`: counts amounts, not bytes; `StreamBuffer` and `MessageFlow` have the bytes.
- `MessageFlow.MessagesKeepTheirBoundaries`: one writer and one reader, as the documentation demands; an empty message is written but never published, as in the code.
- `EventGroups.EventGroup.SetBits`: returns the bits at the end of its own stretch; the code reads them again after the scheduler resumes.
- `Mutexes.GiveUpSettles`: for waiting lists in order of priority; where nested blocking has changed the priority of a waiter the list is not re-sorted, and the code takes its head for the highest.
- `KernelWake.WakesOnTime`: for tasks that no step concerns before: `Concerns` names the steps that wake or move a sleeper for another reason (being the head of an event list that is served, a notification, an aborted delay, suspension, being held pending when the scheduler resumes).
- `Calendar.Rtc.Set`: nothing is said of the counter for months outside 1 to 13, which index the month table out of range.
- Creation of tasks after the scheduler has started, deletion of tasks, queues and timers, `xQueueGenericReset` on a live queue, and memory reclaim by the idle task.
- The return values of the blocking calls.
- The timer delete command, pended function calls, and what timer callbacks do.
- Co-routines, queue sets, tickless idle, MPU wrappers, tracing, run-time statistics, stack checks: switched off in this build.
- The port layer, context-switch assembly, interrupt masking and heap.
- Stream buffer calls from interrupts, and the length limit of a message with a 32-bit `size_t` beyond which adding its length bytes overflows.
- Device drivers, `Touch.c`, and the RTC peripheral, whose counter is a 32-bit field here.

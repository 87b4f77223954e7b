# nimbleRTOS kernel: a verified model

This project models the portable kernel of nimbleRTOS (`kernel/src`, `kernel/include/nimble_list.h`) and the
context switch of its Cortex-M4 port, and proves what the kernel keeps over every run.

The kernel is **one state machine** (`Kernel.dfy`). Its state is the control blocks, the ready lists and their bitmap,
the delayed list, the wait lists, the mutexes, semaphores, queues and the tick. Its steps are every critical section,
every call from an interrupt, every tick, and every PendSV switch. A call that can wait is two steps: a block half
(`Lock`, `Take`, `Send`, `Receive`, `Delay`) and, when the task runs again, a resume half (`LockReturn`, ...). A run is
any sequence of enabled steps, so a theorem about runs covers every interleaving of tasks, interrupts and timeouts. A
theorem that starts from a state with `Inv` holds of every reachable state (`Invariants.BootInv`, `Invariants.Reachable`).
The timer service (`TimerService.dfy`) adds its own steps on top of these.

Three layers:

| layer | files |
|---|---|
| the kernel's functions and steps | `Base`, `Sequences`, `Bitmap`, `Scheduler`, `Kernel`, `Timers`, `TimerService`, `Context` |
| theorems about steps and runs | `Membership`, `Ticking`, `Evolution`, `Invariants`, `Effects`, `Dispatch`, `Priority`, `Inheritance`, `Inversion`, `Boosts`, `Exclusion`, `WaitOrder`, `RoundRobin`, `Signals`, `Suspension`, `Handover`, `Semaphores`, `Queues`, `Contracts`, `TimerContracts`, `Multitasking`, `Counterexamples` |
| the code in place | `IntrusiveList` (the pointers of one list), `Rings` (all lists of one kind of node), `SchedulerCode`, `PrimitivesCode`, `SystemCode`, `TimerCode`, `Context.Processor` |

Two modules say **what each call does**, told from its arguments and the state before, control block by control block and
list by list: `Contracts` for the kernel's steps, `TimerContracts` for the events of the timer service. They do not
mention the operations that calls are made of. Every step keeps its contract (`Contracts.EveryStepMeets`), and a
contract admits one outcome only (`Contracts.NothingIsOpen`).

The classes of the third layer have the source's fields: rings of nodes on the heap for the ready, delayed, wait and
active-timer lists, a 32-bit word for the bitmap, an array for a queue's buffer and for memory, and the source's loops,
which walk the pointers. A node is unlinked through its own pointers, wherever it is. Each method ends in the state that
the function of the first layer gives, and leaves the nodes of all other lists and objects as they are. `SystemCode` has
one scheduler and all the objects of an application on one heap: after any sequence of calls (`PerformAll`) they are in
the state of `Kernel.Run` of the same steps and have returned what those steps return, so the theorems of the second
layer are about the code. Sequences of tasks appear there only in ghost fields that `Valid` ties to the rings.

**Assumptions.** Each critical section, interrupt call and `select_next` is atomic, as
`kernel/include/nimble_scheduler.h:54-60` and `port/stm32f4/system_stm32f4xx.c:32-44` intend. Task code runs only while
its task is RUNNING and current, and the idle task makes no kernel call. Queue items and timer callbacks are opaque. The
fields `link`, `event`, `call`, `answers` and `arrived` of a control block record where its two nodes are, which call it
is in, how often its call was answered and its wait ticket; the code has the first two as pointers and the others not at
all. The classes keep them up to date and test none of them.

**The discipline** of the inheritance theorems (`Inheritance.Disciplined`) is how `app/power_supply/power_supply.c:31-59`
uses its mutex, in three grades. `TimedLocks`: a task holds at most one mutex, does not wait while it holds one, and is
not suspended while it holds one. `PatientLocks`: also, locks that wait do so for ever. `Strict`: also, nobody suspends
itself or the idle task. Each theorem names the grade it needs. `Dispatch`, `Priority`, `Exclusion`, `WaitOrder`,
`RoundRobin`, `Signals`, `Suspension`, `Semaphores`, `Queues` and `Multitasking` need none.

## What does not hold

- `docs/PRIORITY_INHERITANCE.md:52-63` says a middle task cannot run while a boosted owner holds the mutex. A READY
  owner is boosted without being requeued, so it can: `Counterexamples.MiddleTaskRuns`. `Inversion.InversionExactly` says
  of any state when the next switch passes an owner over for a lower priority, `Inversion.InversionAfterLock` says it from
  the state before the lock that boosts, and `Inversion.BoundedInversion` says what does hold.
- `docs/SCHEDULER.md:5-7` says a bit is set iff its list has a task. `Priority.BitsExactly` says which two kinds of step
  leave a bit over an empty list (`Counterexamples.TimedLocksBreakDispatch` ends with one), and `Priority.BitmapExactly`
  that the promise holds throughout a run from boot exactly if the run has no such step.
- With timed locks, or when a task suspends itself, `select_next` can be led to an empty list:
  `Counterexamples.TimedLocksBreakDispatch`, `Counterexamples.SelfSuspensionBreaksDispatch`. For any state
  `Dispatch.DispatchExactly` says when it finds a task, for any step `Dispatch.StrandsExactly` says, from the state
  before, when it no longer does, and `Dispatch.DispatchSafeExactly` says it of whole runs.
- With timed locks a boost can outlive the waiter it came from: `Counterexamples.BoostOutlivesWaiter`.
  `Boosts.InheritanceExactly` says which ticks do it and `Boosts.TimedInheritanceExactly` says it of whole runs.
- `kernel/src/mutex.c:13-15` has the head of a wait list always be the one to wake next. A waiter that is boosted keeps its
  place: `Counterexamples.BoostedWaiterStaysBehind`. `WaitOrder.OrderExactly` says which steps upset the order, and
  `WaitOrder.WaitOrderExactly` which runs.
- A queue with a blocking producer can lose a wake-up: `Counterexamples.ReceiverAndSenderDeadlock`.
  `Queues.ItemsCoveredExactly` and `Queues.SlotsCoveredExactly` say which steps do it, `Queues.WakeupsExactly` which runs.
- A delay of more than 2^31 + 1 ticks ends at the first tick: `Signals.ExactDeadline`.
- The drain loop can run for ever: with period 0, with a period of 2^31 for a timer due now or 2^31 ticks late, and with
  a period p of 3 * 2^30 or more for a timer at most p - 2^31 ticks late (`Timers.LongPeriodNeverEnds` is an input).
  Without such a timer it ends, whatever the list is like (`Timers.UntrappedEnds`); with one, in a list in order, it does
  not (`Timers.LoopEndsExactly`).

## Model

| member | source | states |
|---|---|---|
| Bitmap.OrAddsLevel | kernel/src/scheduler.c:62 | setting a bit of the word adds exactly that level to the set of levels |
| Bitmap.AndNotRemovesLevel | kernel/src/scheduler.c:69-71 | clearing a bit removes exactly that level |
| Bitmap.ClzIsLinearScan | kernel/src/scheduler.c:33-41 | `31 - clz` of a non-zero word is what a scan of the 32 levels from the top finds |
| Ticking.TickFrame | kernel/src/scheduler.c:134-158 | a tick wakes every due task and no other, with one timeout answer, off both lists and at the tail of its ready list; every list keeps the order of the rest, although the scan unlinks as it walks |
| Invariants.NextKeeps | kernel/src/scheduler.c:58-158 | every step of the kernel keeps the invariant: lists and nodes agree, states and lists agree, owners and waiters agree, rings are well formed |
| Invariants.MembershipOverRuns | kernel/src/scheduler.c:58-158 | after any run: one RUNNING task at most, the current one; READY on exactly one ready list; the delayed list is exactly the tasks blocked with a finite wait; a wait list is exactly the tasks blocked on its object; a non-empty list has its bit set |
| Evolution.SortedInsert | kernel/src/mutex.c:20-36 | inserting before the first strictly lower priority keeps a wait list sorted, newcomers behind their equals |
| Exclusion.OwnerMoves | kernel/src/mutex.c:44-144 | mutual exclusion per step: an owner loses the mutex only by its own last unlock, to the head waiter or to nobody, and a free one goes only to the task that locks it |
| Exclusion.HeldUntilUnwound | kernel/src/mutex.c:51-56 | over any run a task that unlocked less often than it locked still owns the mutex, at exactly that depth, as long as the depth fits 32 bits |
| Exclusion.LastUnlockReleases | kernel/src/mutex.c:118-133 | an unlock by the owner gives the mutex up if and only if it is the one that balances the locks |
| Exclusion.MutexAnswers | kernel/src/mutex.c:44-61 | a lock says OK exactly when the caller then owns the mutex; an unlock is refused exactly to who does not own it, and then changes nothing |
| Exclusion.NoWaitNeverBlocks | kernel/src/queue.c:63-66 | with no wait a lock, take, send or receive never blocks its caller; one that is not served returns a timeout, a full or an empty queue, and changes nothing at all |
| Contracts.TaskMeets | kernel/src/task.c:32-122 | create, delay, suspend, resume, tick and switch, told from their arguments: what they return, and every control block and list after; a new task has the priority asked for as its priority and its base |
| Contracts.MutexMeets | kernel/src/mutex.c:38-144 | likewise lock, its return, and unlock |
| Contracts.SemaphoreMeets | kernel/src/semaphore.c:34-111 | likewise take, its return, and both gives |
| Contracts.QueueMeets | kernel/src/queue.c:49-152 | likewise send, receive, their returns, and the send of an interrupt, on the items a queue holds |
| Contracts.EveryStepMeets | kernel/include/nimble_scheduler.h:54-60 | every step in every reachable state does what its contract says |
| Contracts.NothingIsOpen | kernel/include/nimble_scheduler.h:54-60 | any two outcomes that keep the contract of a step return the same and are the same state, up to where a ring buffer begins in its memory |
| Contracts.CallEnds | kernel/src/queue.c:75-133 | over any run from the block half of a call to its return: exactly one step ends the wait; the call returns a timeout if and only if that is a tick, else OK or its item, or full or empty exactly if the queue is so again; a send stores the item it was called with |
| Effects.SleepsAsAsked | kernel/src/scheduler.c:74-94 | a call that waits, told from its arguments: what its control block records, on which lists it goes and where, until when, and who is boosted; nobody and nothing else moves |
| Dispatch.DispatchExactly | kernel/src/scheduler.c:110-132 | in any reachable state `select_next` finds a task if and only if some task can run and, for every set bit, one stands at or above it; it picks the head of the highest list, or the running task if that list is empty |
| Dispatch.StrandsExactly | kernel/src/scheduler.c:65-94 | from a state that can dispatch, a step leads to one that cannot if and only if it blocks, suspends or restores the priority of the last runnable task at or above a bit that stays set, told from the state before the step |
| Dispatch.NextKeepsLevels | kernel/src/mutex.c:80-82 | no step ever leaves a READY task queued above its priority |
| Dispatch.DispatchSafeExactly | kernel/src/scheduler.c:119-127 | over every run from boot, whatever tasks and interrupts do: `select_next` finds a task in every state if and only if no step of the run strands it |
| Inheritance.DispatchSafe | kernel/src/scheduler.c:119-127 | in a state with stale bits that the inheritance invariant excuses, the list at the highest set bit is not empty |
| Inheritance.NextKeepsInh | kernel/src/mutex.c:38-144 | every step that keeps the discipline, in any of its grades, keeps the invariant of that grade: owners can run and hold one mutex, inherit at least, and stand no higher than their priority; without timeouts exactly; and in the strict grade each stale bit is excused by the running task, or by an owner or waiter of that base priority whose owner stands above it |
| Inheritance.DispatchNeverFails | kernel/src/scheduler.c:110-132 | after every strictly disciplined run, suspends of READY tasks included, `select_next` finds a task |
| Inheritance.ExactInheritance | kernel/src/mutex.c:63-82 | after every disciplined run without lock timeouts, in which any task that holds no mutex may be suspended, an owner's priority is exactly the maximum of its base and its waiters' priorities, and everybody else runs at base |
| Inheritance.InheritanceAtLeast | kernel/src/mutex.c:80-126 | with timed locks too, an owner never runs below its base or a waiter |
| Inversion.NextKeepsStanding | kernel/src/mutex.c:80-82 | no disciplined step lowers the level a mutex owner competes at while it owns |
| Inversion.BoundedInversion | kernel/src/scheduler.c:119-130 | while a task owns a mutex every switch picks from its level or above; once it has been dispatched that level is at least every waiter's priority, so nothing in between runs |
| Inversion.InversionExactly | kernel/src/scheduler.c:119-130 | in any reachable state the next switch goes to a task of lower priority than a runnable task exactly when the head of the highest list that has a task is of lower priority; then the task passed over is READY on a list below its priority, and every runnable task stands below that priority |
| Inversion.InversionAfterLock | docs/PRIORITY_INHERITANCE.md:52-63 | from the lock that waits for a READY owner to the switch it asks for, told from the state before the lock: the owner is passed over by a lower priority exactly if a task other than the owner, of a priority below the one it inherits, heads the highest list that is left; then nobody left stands as high as that |
| Boosts.InheritanceExactly | kernel/src/scheduler.c:149-155 | with timed locks, from a state in which every owner has exactly the inherited priority, a step leaves one above it if and only if it is a tick that times out every waiter of that priority while the owner is above its base |
| Boosts.TimedInheritanceExactly | kernel/src/mutex.c:80-126 | over every disciplined run from boot: inheritance is exact in every state if and only if no tick does that |
| Priority.BitsExactly | kernel/src/scheduler.c:65-72 | with a task behind every set bit, a step leaves a bit over an empty list if and only if it is a switch whose top list holds one task, of another priority, or a suspend of a READY task alone on a list that is not that of its priority |
| Priority.BitmapExactly | docs/SCHEDULER.md:5-7 | over every run from boot: in every state a bit is set iff its list has a task, if and only if the run has no such step |
| Priority.SharpExactly | kernel/src/mutex.c:80-82 | with a task behind every bit and every READY task on the list of its priority, a step keeps both if and only if it is not a lock that waits and boosts a READY owner |
| Priority.HighestPriorityRuns | kernel/src/scheduler.c:119-130 | then dispatch works exactly if some task can run, and picks one of highest priority |
| Priority.TopPriorityAlwaysRuns | docs/SCHEDULER.md:5-25 | the same after every run from boot that boosts no READY owner |
| WaitOrder.OrderExactly | kernel/src/mutex.c:13-36 | a step upsets the order of a wait list, by priority and by arrival among equals, if and only if it boosts a waiter beyond one ahead of it |
| WaitOrder.WaitOrderExactly | kernel/src/mutex.c:13-15 | over every run from boot: every wait list is in order in every state if and only if no step of the run does that |
| WaitOrder.HeadHasWaitedLongest | kernel/src/mutex.c:13-19 | after every such run the head of a wait list has waited longest among the waiters of highest priority |
| RoundRobin.NextAdvances | kernel/src/scheduler.c:112-127 | a task that stays on the top list only moves forward, by at least one place per switch |
| RoundRobin.WaitsAtMostItsPosition | kernel/src/scheduler.c:112-127 | a task at position i of the top list is passed over by at most i switches |
| RoundRobin.PeersTakeTurns | kernel/src/scheduler.c:112-118 | peers of one level run cyclically: the j-th switch goes to the task j places on, with the number of peers as period |
| Signals.SignalOrTimeout | kernel/src/scheduler.c:96-108 | whatever step happens, a task in a call keeps everything but its priority, or, if it was blocked, gets one answer and leaves both lists; an answered call is not answered again |
| Signals.OnlyTheHeadWakes | kernel/src/scheduler.c:96-108 | a step other than a tick wakes a blocked task only if the task heads the list the step signals |
| Signals.ExactlyOneAnswer | kernel/src/scheduler.c:145-158 | between block and resume there is at most one wake-up, the task is blocked exactly until then, and its result is `Timeout` if that was a tick and `OK` if a signal |
| Signals.ResumeFindsOneAnswer | kernel/src/mutex.c:90-106 | when a call resumes its one answer is there; the lock's test of the owner agrees with the result |
| Signals.DueAfterOneTick | kernel/src/scheduler.c:149 | the signed comparison finds a wake tick r ahead due at the next tick exactly if r is 1 or more than 2^31 + 1 |
| Signals.SleepsUntilDeadline | kernel/src/scheduler.c:82-94 | unsignalled, a timed wait is still on before its deadline, across wrap-around of the clock |
| Signals.WakesAtDeadline | kernel/src/scheduler.c:145-158 | and the tick that completes it makes the task READY with a timeout |
| Signals.ExactDeadline | kernel/src/task.c:77-95 | for every delay and every call with a timeout, T being the argument of the call: unsignalled it ends with exactly the T-th tick if and only if T is at most 2^31 + 1, else with the first |
| Signals.WaitsForever | kernel/src/scheduler.c:82-94 | a call made to wait for ever is ended by no number of ticks |
| Suspension.OnlyResumeRevives | kernel/src/task.c:97-122 | no signal, tick, switch or call but its own resume brings a suspended task back |
| Suspension.SuspendedThroughout | kernel/src/task.c:97-122 | a suspended task never runs in a run that does not resume it |
| Handover.PendingSteps | kernel/src/semaphore.c:67-80 | the set of tasks signalled on a wait list and not resumed loses only the task that resumes and gains only the one signalled |
| Handover.NewWaiter | kernel/src/semaphore.c:49-51 | a task is in a call on a wait list only if it was before or blocks on it in this step |
| Handover.CallKept | kernel/src/scheduler.c:96-158 | no step begins or ends another task's call |
| Semaphores.UnitsBalance | kernel/src/semaphore.c:34-87 | per step: units counted or granted, plus units handed out, equal those before plus the non-saturated gives |
| Semaphores.Conservation | kernel/src/semaphore.c:34-111 | per run from boot: initial count plus non-saturated gives is the count, plus the granted and not resumed, plus the takes that returned OK |
| Semaphores.CountWithinLimit | kernel/src/semaphore.c:82-84 | a count never exceeds its limit, or its initial value if that was above |
| Semaphores.GrantedCannotBeStolen | kernel/src/semaphore.c:72-80 | a unit handed to a waiter stays his until his own take returns, which returns OK |
| Semaphores.NoWaiterWhileUnitsLeft | kernel/src/semaphore.c:38-50 | a positive count means nobody waits |
| Queues.CopyInAppends | kernel/src/queue.c:35-40 | storing at the tail of the ring appends to its contents |
| Queues.CopyOutPops | kernel/src/queue.c:42-47 | fetching at the head of the ring removes the oldest item |
| Queues.FifoStep | kernel/src/queue.c:49-152 | per step: contents and what the step accepts equal what it delivers and the contents after; a resumed send accepts the item its task called it with |
| Queues.QueueIsFifo | kernel/src/queue.c:49-152 | per run from boot, all interleavings and timeouts: the items passed to the sends that were accepted, at once or after a wait, are, in order, the items delivered followed by the contents |
| Queues.FailedCallsChangeNothing | kernel/src/queue.c:63-91 | a call that returns neither OK nor an item changes no queue |
| Queues.ItemsCoveredExactly | kernel/src/queue.c:79-91 | while a receiver waits every item is spoken for by a signalled receiver; a step breaks this if and only if it is a resumed send that stores an item although all are spoken for |
| Queues.SlotsCoveredExactly | kernel/src/queue.c:120-132 | the same for senders and free slots, broken exactly by a resumed receive |
| Queues.WakeupsExactly | kernel/src/queue.c:75-133 | over every run from boot: no item and no slot is left over while a task waits for it unsignalled, in any state, if and only if no step of the run is one of those two |
| Queues.NoLostWakeup | kernel/src/queue.c:135-152 | in every run from boot with producers that never wait no receiver is stranded, however consumers block and time out |
| Queues.SingleConsumer | kernel/src/queue.c:94-133 | in every run from boot with a single consumer a signalled receive returns an item, whoever sends and however sends block |
| Timers.InsertKeepsList | kernel/src/timer.c:24-41 | insertion keeps the active list sorted by wrapped expiry, ties in insertion order, each active timer once, while any two leads are less than 2^31 apart |
| Timers.StopKeepsList | kernel/src/timer.c:172-181 | so does a stop |
| Timers.SetPeriodKeepsList | kernel/src/timer.c:183-189 | and a new period, which moves no running expiry |
| Timers.TickKeepsList | kernel/src/timer.c:28-32 | and a tick, which brings every timer one tick closer |
| Timers.FireKeepsList | kernel/src/timer.c:79-100 | and a pass of the drain loop |
| Timers.Rescheduled | kernel/src/timer.c:83-97 | where a pass puts a due timer, for every 32-bit period: at the previous expiry plus a period if that lies in the half of the clock ahead of now, else at now plus a period, which from 2^31 on counts as overdue |
| Timers.TrappedStays | kernel/src/timer.c:83-97 | a due periodic timer stays due for ever, pass after pass, exactly if its period and lateness are among the cases listed above; any other is brought ahead of now by one or two passes |
| Timers.FireLightens | kernel/src/timer.c:66-108 | each pass over a timer that is not trapped is one of the passes its lateness and period leave it |
| Timers.DrainComplete | kernel/src/timer.c:66-108 | the loop fires a due one-shot once, a due periodic timer once or twice according to its lateness and period, no other timer; it leaves none due, each at its exact lead, and the list in order |
| Timers.UntrappedEnds | kernel/src/timer.c:66-108 | with the tick frozen the loop ends whenever no due periodic timer is trapped by its period: for all 32-bit periods, any order of the list and any distance between the timers |
| Timers.LoopEndsExactly | kernel/src/timer.c:66-108 | with the list in order and staying so, it ends if and only if no due periodic timer is trapped |
| Timers.LongPeriodNeverEnds | kernel/src/timer.c:121-131 | one timer due now with period 3 * 2^30 keeps the loop going for ever |
| Timers.WaitIsLeast | kernel/src/timer.c:48-58 | the wait computed from the head alone is for ever exactly if no timer runs, none exactly if some timer is due, and otherwise the time to the soonest of all |
| Timers.StartSets | kernel/src/timer.c:146-158 | a started timer is active, reads now plus its period modulo 2^32, leads by its period (less 2^32 from 2^31 on) and stands in front of the first that expires later; no other timer changes |
| Timers.ResetSets | kernel/src/timer.c:183-189 | the same with the new period |
| Timers.StopSets | kernel/src/timer.c:172-181 | a stopped timer is off the list and inactive, and otherwise as it was |
| Timers.PeriodSets | kernel/src/timer.c:183-188 | a new period is the one given, and nothing else changes |
| Timers.FireSets | kernel/src/timer.c:79-100 | a pass moves the head on by a period, from its previous expiry if that is on beat and else from now, or retires it |
| TimerContracts.EveryEventMeets | kernel/src/timer.c:43-189 | every event of the service and of its users, told from its arguments: the timers, the list, the kernel and the service's place in its loop after it; a start owes a give exactly if the timer is the new head |
| TimerContracts.AlwaysMeets | kernel/src/timer.c:43-189 | so it does at any point of any run from the start of the service |
| TimerContracts.NoEventIsOpen | kernel/src/timer.c:43-189 | any two outcomes that keep the contract of an event are the same |
| TimerContracts.StartedIsDueOnTime | docs/TIMERS.md:38-48 | over any run: a started timer of period p below 2^31 that nobody touches is not fired before its p-th tick and is due exactly then |
| TimerService.HappensKeeps | kernel/src/timer.c:43-110 | every event of the kernel, the service and its users keeps the reason why the service does not oversleep |
| TimerService.OversleepBound | kernel/src/timer.c:48-64 | after any run: a blocked service task is owed a give, or no timer runs, or it wakes at most `slip` ticks after the soonest timer, `slip` being the ticks between computing the wait and blocking |
| TimerService.TimeoutIsNotLate | docs/TIMERS.md:26-36 | so when a tick wakes it the soonest timer is at most `slip` ticks overdue |
| TimerService.TimersStaySorted | kernel/src/timer.c:9-14 | after any run the list holds exactly the active timers, soonest first, ties in insertion order |
| Timers.OnBeatExactly | kernel/src/timer.c:83-97 | a pass puts a due timer one period after its previous expiry if and only if the firing is at its tick, or the next expiry is ahead of now by less than 2^31, for every 32-bit period |
| TimerService.NoDrift | docs/TIMERS.md:38-48 | for any period: after k firings, each of which is one of those two, the expiry is the first one plus k periods modulo 2^32 |
| TimerService.NoDriftExactly | docs/TIMERS.md:38-48 | over any run in which nobody touches the timer: it is on that beat in every state if and only if every firing is one of those two |
| Context.SwitchSaves | port/arch/cortex-m4/context_switch.S:34-49 | a switch leaves the interrupted registers in the sixteen words under the saved stack pointer |
| Context.SwitchRestores | port/arch/cortex-m4/context_switch.S:60-69 | a switch to another task loads exactly the registers saved for it |
| Context.StepKeepsSaved | port/arch/cortex-m4/context_switch.S:34-69 | nothing that happens to other tasks touches a saved context |
| Context.ContextPreserved | docs/CONTEXT_SWITCH.md:30-64 | a task switched out and later in again finds every register as it left it |
| Context.StepKeepsStack | port/arch/cortex-m4/context_switch.S:34-69 | nothing that happens to other tasks writes to a task's stack |
| Context.StackPreserved | docs/CONTEXT_SWITCH.md:30-64 | a task switched out and later in again finds its stack, from its stack pointer up, word by word as it left it |
| Context.SwitchToSelf | port/arch/cortex-m4/context_switch.S:34-69 | a switch from a task to itself changes no register |
| Context.FirstRunStartsAtEntry | port/arch/cortex-m4/task_stack_init.c:50-75 | a task that never ran starts at its function with its argument in R0, Thumb state, the trap in LR, the fill patterns in all other registers and an empty stack |
| Multitasking.StartsJoined | kernel/src/scheduler.c:43-56 | kernel and processor together: after initialisation, with the idle task and its stack, they agree on the current task and on the set of tasks with a stack |
| Multitasking.KeepsJoined | kernel/src/scheduler.c:110-132 | every event keeps it so, and so the task `select_next` picks always has a saved context |
| Multitasking.ResumesWithItsRegisters | docs/CONTEXT_SWITCH.md:30-64 | over runs in which `select_next` decides who is next: a task that is switched out, and is later the one picked, resumes with every register as it was |
| Multitasking.ResumesWithItsStack | docs/CONTEXT_SWITCH.md:30-64 | and with its stack as it was |
| Multitasking.StartsAtItsEntry | port/arch/cortex-m4/task_stack_init.c:50-75 | and a new task starts at its function with its argument when `select_next` first picks it |
| Counterexamples.MiddleTaskRuns | docs/PRIORITY_INHERITANCE.md:48-63 | a disciplined run after which a task of priority 3 runs while a waiter of 5 waits for an owner boosted to 5 |
| Counterexamples.TimedLocksBreakDispatch | kernel/src/scheduler.c:65-72 | a run with one timed lock after which the highest set bit is over an empty list |
| Counterexamples.SelfSuspensionBreaksDispatch | kernel/src/task.c:97-113 | a disciplined run without timed locks in which a task that was boosted suspends itself, after which the highest set bit is over an empty list |
| Counterexamples.ReceiverAndSenderDeadlock | kernel/src/queue.c:120-132 | a run after which a receiver waits on an empty queue, a sender waits for room in it, and no task is left to wake them |
| Counterexamples.BoostedWaiterStaysBehind | kernel/src/mutex.c:13-15 | a run after which a semaphore's waiter of priority 2 stands ahead of one boosted to 5 |
| Counterexamples.BoostOutlivesWaiter | kernel/src/scheduler.c:149-155 | a disciplined run with one timed lock after which an owner of base 1 has priority 5 and no waiter |
| IntrusiveList.Node.constructor | kernel/include/nimble_list.h:25-29 | a fresh node is an empty ring |
| IntrusiveList.WalkReturns | kernel/include/nimble_list.h:25-34 | a walk along a ring meets the nodes in order and comes back to the head |
| IntrusiveList.Init | kernel/include/nimble_list.h:25-29 | on a node in use: one on no list stays a ring of its own; one on a list cuts it, and no walk from the head comes back to it |
| IntrusiveList.IsEmpty | kernel/include/nimble_list.h:31-34 | the pointer test is emptiness of the sequence |
| IntrusiveList.InsertTail | kernel/include/nimble_list.h:36-43 | four pointer writes append to the sequence |
| IntrusiveList.InsertHead | kernel/include/nimble_list.h:45-52 | four pointer writes prepend to it |
| IntrusiveList.Remove | kernel/include/nimble_list.h:54-61 | the ring loses the node, wherever it is, and the node is self-linked; for a self-linked node nothing changes |
| IntrusiveList.LinkBefore | kernel/src/mutex.c:30-35 | the pointer writes of the insertion loops insert at that position |
| Rings.Rings.AddHead | kernel/include/nimble_list.h:25-29 | one more empty list, apart from all others |
| Rings.Rings.AddNode | kernel/include/nimble_list.h:25-29 | one more node on no list |
| Rings.Rings.Init | kernel/include/nimble_list.h:25-29 | a node in use that is on no list leaves all lists as they are; one on a list loses that list |
| Rings.Rings.NotLost | kernel/include/nimble_list.h:25-34 | in every valid state the walk along a list comes back to its head |
| Rings.Rings.First | kernel/include/nimble_list.h:63-64 | the object that contains the node the head points to is the first of the list |
| Rings.Rings.InsertTail | kernel/include/nimble_list.h:36-43 | among all lists: the node is the last of its list, every other list and node is as it was |
| Rings.Rings.Find | kernel/src/mutex.c:22-29 | the walk along the pointers ends at the first object that stops it, or at the head |
| Rings.Rings.InsertBefore | kernel/src/mutex.c:20-36 | the sorted insertion of wait lists and timers: the node stands in front of that object, every other list and node is as it was |
| Rings.Rings.Remove | kernel/include/nimble_list.h:54-61 | told the node alone: it leaves the list it is on, wherever it stands, or stays on none; every other list and node is as it was |
| SchedulerCode.SchedulerState.constructor | kernel/src/scheduler.c:43-52 | 33 empty rings, a zero word and no current task |
| SchedulerCode.SchedulerState.HighestSetBit | kernel/src/scheduler.c:33-41 | the highest level of the word |
| SchedulerCode.SchedulerState.UnlinkNode | kernel/include/nimble_list.h:54-61 | four pointer writes at the `link` node take the task off its ready list or the delayed list, whichever it is on, and all rings mirror the state after |
| SchedulerCode.SchedulerState.UnlinkEventNode | kernel/src/scheduler.c:150-153 | four pointer writes at the `event_link` node take the task from anywhere in its wait list; the wait lists stay in order of priority and arrival |
| SchedulerCode.SchedulerState.AddReadyTask | kernel/src/scheduler.c:58-63 | the state after is `Scheduler.AddReady` of the state before |
| SchedulerCode.SchedulerState.RemoveTask | kernel/src/scheduler.c:65-72 | likewise `Remove`, which tests the list of the present priority |
| SchedulerCode.SchedulerState.BlockCurrentDelayTask | kernel/src/scheduler.c:74-80 | likewise `BlockCurrentDelay` |
| SchedulerCode.SchedulerState.PrepareBlockTask | kernel/src/scheduler.c:82-94 | likewise `PrepareBlock` |
| SchedulerCode.SchedulerState.WakeTask | kernel/src/scheduler.c:103-106 | likewise `MakeReady` |
| SchedulerCode.SchedulerState.WakeWaiterOf | kernel/src/scheduler.c:96-108 | likewise `WakeWaiter`; in an ordered list the task woken, the one the head points to, has waited longest of the waiters of highest priority |
| SchedulerCode.SchedulerState.InsertSorted | kernel/src/mutex.c:20-36 | likewise `EnqueueWaiter`: the walk along the ring stops at the sorted position; the wait lists stay in order of priority and arrival |
| SchedulerCode.SchedulerState.SelectNextTask | kernel/src/scheduler.c:110-132 | likewise `SelectNext` |
| SchedulerCode.SchedulerState.SysTick | kernel/src/scheduler.c:134-158 | likewise `Tick`, whose effect `Ticking.TickFrame` states: the walk saves the successor before it unlinks the current node, and that successor stays the next one |
| SchedulerCode.SchedulerState.Create | kernel/src/task.c:32-70 | a bad priority changes nothing and returns an error; else likewise `CreateTask` |
| SchedulerCode.SchedulerState.Suspend | kernel/src/task.c:97-113 | likewise `SuspendTask` |
| SchedulerCode.SchedulerState.Resume | kernel/src/task.c:115-122 | likewise `ResumeTask` |
| SchedulerCode.SchedulerState.BlockOnCall | kernel/src/mutex.c:84-88 | likewise `BlockOn`, the block half every primitive shares |
| SchedulerCode.SchedulerState.LeaveCall | kernel/src/semaphore.c:59-64 | likewise `Leave`, the resume half |
| SchedulerCode.SchedulerState.InitWaitList | kernel/include/nimble_list.h:25-29 | a new object's wait list is empty, and the state is as it was |
| SchedulerCode.InsertionKeepsOrder | kernel/src/mutex.c:13-36 | the insertion keeps every wait list sorted by priority and, among equals, by wait ticket |
| SchedulerCode.RemovalKeepsOrder | kernel/src/scheduler.c:150-153 | so does a removal from anywhere |
| PrimitivesCode.MutexObject.constructor | kernel/src/mutex.c:6-11 | a free mutex with an empty ring of waiters; the scheduler gains one new node and is as it was |
| PrimitivesCode.MutexObject.Lock | kernel/src/mutex.c:38-88 | mutex and scheduler end in the state of the kernel's lock step, with its result; every list head and node stays where it was, so all other objects are as they were |
| PrimitivesCode.MutexObject.LockReturn | kernel/src/mutex.c:90-106 | likewise for the resume half |
| PrimitivesCode.MutexObject.Unlock | kernel/src/mutex.c:109-144 | likewise for unlock |
| PrimitivesCode.SemaphoreObject.constructor | kernel/src/semaphore.c:6-11 | the given count and limit and an empty ring of waiters |
| PrimitivesCode.SemaphoreObject.Take | kernel/src/semaphore.c:34-54 | likewise for the take step |
| PrimitivesCode.SemaphoreObject.TakeReturn | kernel/src/semaphore.c:56-65 | likewise for its resume half |
| PrimitivesCode.SemaphoreObject.Give | kernel/src/semaphore.c:67-87 | likewise for a give |
| PrimitivesCode.SemaphoreObject.GiveFromIsr | kernel/src/semaphore.c:89-111 | likewise from an interrupt; a yield is asked for exactly if a task was waiting |
| PrimitivesCode.QueueObject.constructor | kernel/src/queue.c:23-33 | an empty ring buffer on the caller's memory and two empty rings of waiters |
| PrimitivesCode.QueueObject.Put | kernel/src/queue.c:35-40 | one array write and two index updates are `CopyIn` |
| PrimitivesCode.QueueObject.Get | kernel/src/queue.c:42-47 | and `CopyOut` |
| PrimitivesCode.QueueObject.Send | kernel/src/queue.c:49-73 | queue and scheduler end in the state of the kernel's send step, with its result |
| PrimitivesCode.QueueObject.SendReturn | kernel/src/queue.c:75-92 | likewise for its resume half |
| PrimitivesCode.QueueObject.Receive | kernel/src/queue.c:94-118 | likewise for the receive step |
| PrimitivesCode.QueueObject.ReceiveReturn | kernel/src/queue.c:120-133 | likewise for its resume half |
| PrimitivesCode.QueueObject.SendFromIsr | kernel/src/queue.c:135-152 | likewise for a send from an interrupt; a yield is asked for exactly if a receiver was woken |
| SystemCode.KernelObjects.constructor | kernel/src/scheduler.c:43-56 | a scheduler with the idle task and no objects is a kernel about to start |
| SystemCode.KernelObjects.AddMutex | kernel/src/mutex.c:6-11 | one more mutex: the state gains a free mutex and nothing else, no two objects share memory, and a kernel about to start still is |
| SystemCode.KernelObjects.AddSemaphore | kernel/src/semaphore.c:6-11 | likewise one more semaphore |
| SystemCode.KernelObjects.AddQueue | kernel/src/queue.c:23-33 | likewise one more queue, on memory that no object uses |
| SystemCode.KernelObjects.AllIn | kernel/include/nimble_mutex.h:38-42 | every mutex, semaphore and queue is its part of one kernel state |
| SystemCode.KernelObjects.Perform | kernel/src/task.c:77-122 | whatever call is made next, by a task or an interrupt: scheduler and all objects together go from one kernel state to the next, with its result, as the contract of the call says, and stay apart |
| SystemCode.KernelObjects.PerformAll | kernel/src/scheduler.c:110-158 | refinement over any sequence of enabled calls: the heap ends in the state of the kernel's run of the same steps, having returned what they return, and keeps the invariant |
| TimerCode.TimerList.constructor | kernel/src/timer.c:112-114 | an empty ring and no timers |
| TimerCode.TimerList.Init | kernel/src/timer.c:121-134 | the timer is not active and all other timers are as they were; if it was not running the list is as it was, and if it was the list is lost: no walk from its head comes back |
| TimerCode.TimerList.InsertSorted | kernel/src/timer.c:24-41 | the walk along the ring and four pointer writes end in `Timers.Insert` of the state before |
| TimerCode.TimerList.StartTimer | kernel/src/timer.c:146-158 | the timer runs, expires one period from now and is in its place in the ring, the others are as they were; true exactly if it is the new head |
| TimerCode.TimerList.StopTimer | kernel/src/timer.c:172-181 | four pointer writes at the timer's node take it from anywhere in the ring, the rest stay in order, and the timer is active no more |
| TimerCode.TimerList.ResetTimer | kernel/src/timer.c:183-189 | likewise with the new period |
| TimerCode.TimerList.FireOne | kernel/src/timer.c:79-100 | likewise `FireHead` |
| TimerCode.TimerList.DrainDue | kernel/src/timer.c:66-108 | the loop terminates, fires what `Timers.DrainComplete` says and leaves no timer due |
| Context.Processor.StoreMultiple | port/arch/cortex-m4/context_switch.S:48 | consecutive words are written, nothing else changes |
| Context.Processor.LoadMultiple | port/arch/cortex-m4/context_switch.S:65 | consecutive words are read |
| Context.Processor.StackAndSave | port/arch/cortex-m4/context_switch.S:34-49 | hardware frame and r4-r11 on the outgoing stack |
| Context.Processor.LoadAndUnstack | port/arch/cortex-m4/context_switch.S:60-69 | r4-r11 and hardware frame from the incoming stack |
| Context.Processor.PendSV | port/arch/cortex-m4/context_switch.S:34-69 | the whole handler is `Switched`, which `Context.ContextPreserved` is about |
| Context.Processor.StartFirst | port/arch/cortex-m4/context_switch.S:78-94 | the first task starts from its saved frame |
| Context.Processor.Push | port/arch/cortex-m4/task_stack_init.c:55 | one word under the pointer |
| Context.Processor.InitTaskStack | port/arch/cortex-m4/task_stack_init.c:50-75 | sixteen pushes leave the fabricated frame, lowest register lowest |
| Context.Processor.CreateTask | kernel/src/task.c:29-51 | too small a stack changes nothing and is refused; else the control block points at the fabricated frame under the top of its stack, which is `Created` |

## Left out

- Inheritance.DispatchNeverFails: needs the strict discipline; what holds without it is in `Dispatch.DispatchSafeExactly`.
- Inheritance.InheritanceAtLeast: is one-sided, because a waiter that times out does not lower the owner's boost; when it is exact is in `Boosts.TimedInheritanceExactly`.
- Inversion.InversionAfterLock: is about the switch right after the lock; interrupts in between may make more tasks READY, and `Inversion.InversionExactly` then tells of the state they leave.
- Timers.DrainComplete: takes callbacks that touch no timer and a tick that stands still; callbacks that call the kernel, and start, stop or reset timers, are in `TimerService`.
- Timers.LoopEndsExactly: assumes that any two timers stay less than 2^31 apart wherever the loop takes them, as the wrapped comparison of the insertion loop does; else a trapped timer can end up behind one that is not due. `Timers.UntrappedEnds` needs no such assumption.
- TimerService.OversleepBound: assumes the service is never starved so long that an expiry leaves the signed half of the clock, as the wrapped comparisons do.
- Nested mutexes and transitive inheritance: the source says it does not implement them.
- BASEPRI, NVIC, barriers, the tick source and the request bit of PendSV: a switch may happen at any point of a run.
- Padding of the exception frame to 8 bytes, the floating-point state and EXC_RETURN: the frame is the eight words of section B1.5.6 of the ARMv7-M Architecture Reference Manual.
- Task names, the stack canary and its high-water mark, null checks of `nimble_task_create`, `nimble_task_self`.
- The bytes of a queue item: an item is one opaque value and the buffer an array of items.
- The power-supply application, start-up code, vector table and build.

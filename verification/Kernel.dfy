/**
 * The kernel as one state machine: every critical section, every ISR call, every tick and
 * every PendSV switch is a step. A call that can wait is two steps, its block half and,
 * once the task runs again, its resume half.
 */
module Kernel {
  import opened Base
  import opened Sequences
  import opened Scheduler

  datatype Mutex = Mutex(owner: Option<Tid>, depth: nat)
  datatype Semaphore = Semaphore(count: nat, max: nat)
  datatype Queue = Queue(buffer: seq<Item>, head: nat, tail: nat, count: nat)

  datatype Kernel = Kernel(s: Sched, mutexes: map<nat, Mutex>, sems: map<nat, Semaphore>, queues: map<nat, Queue>)

  /** How a step ends: the call waits, returns a status or an item, or the step returns nothing. */
  datatype Out = Waits | Returns(status: Status) | Got(item: Item) | Nothing

  datatype Step =
    | Create(t: Tid, prio: nat)
    | Switch
    | SysTick
    | Delay(ticks: nat) | DelayReturn
    | Suspend(t: Tid) | Resume(t: Tid)
    | Lock(m: nat, timeout: nat) | LockReturn(m: nat) | Unlock(m: nat)
    | Take(sem: nat, timeout: nat) | TakeReturn(sem: nat) | Give(sem: nat) | GiveFromIsr(sem: nat)
    | Send(q: nat, item: Item, timeout: nat) | SendReturn(q: nat) | SendFromIsr(q: nat, item: Item)
    | Receive(q: nat, timeout: nat) | ReceiveReturn(q: nat)

  function Self(k: Kernel): Tid { if k.s.cur.Some? then k.s.cur.value else IDLE }

  // ---- task.c ----------------------------------------------------------------------------

  function TaskCreate(k: Kernel, t: Tid, prio: nat): (Kernel, Out) {
    if prio >= MAX_PRIORITIES then (k, Returns(InvalidArg))
    else (k.(s := CreateTask(k.s, t, prio)), Returns(OK))
  }

  function TaskDelay(k: Kernel, ticks: nat): (Kernel, Out) {
    if ticks == 0 then (k, Nothing) else (k.(s := BlockOn(k.s, Self(k), Delaying(ticks))), Waits)
  }

  // ---- mutex.c ---------------------------------------------------------------------------

  /** Priority inheritance: the owner's priority is raised, and its node stays where it is. */
  function Boost(s: Sched, owner: Tid, prio: nat): Sched {
    if prio > T(s, owner).prio then SetT(s, owner, T(s, owner).(prio := prio)) else s
  }

  function Restore(s: Sched, t: Tid): Sched { SetT(s, t, T(s, t).(prio := T(s, t).base)) }

  function MutexLock(k: Kernel, m: nat, timeout: nat): (Kernel, Out)
    requires m in k.mutexes
  {
    var self := Self(k);
    match k.mutexes[m].owner
    case None => (k.(mutexes := k.mutexes[m := Mutex(Some(self), 1)]), Returns(OK))
    case Some(owner) =>
      if owner == self then
        (k.(mutexes := k.mutexes[m := Mutex(Some(self), (k.mutexes[m].depth + 1) % U32)]), Returns(OK))
      else if timeout == NO_WAIT then (k, Returns(Timeout))
      else (k.(s := BlockOn(Boost(k.s, owner, T(k.s, self).prio), self, Locking(m, timeout))), Waits)
  }

  function MutexLockReturn(k: Kernel, m: nat): (Kernel, Out)
    requires m in k.mutexes
  {
    if k.mutexes[m].owner == Some(Self(k)) then (k.(s := Enter(k.s, Self(k), NoCall)), Returns(OK))
    else (k.(s := Leave(k.s, Self(k))), Returns(Timeout))
  }

  function MutexUnlock(k: Kernel, m: nat): (Kernel, Out)
    requires m in k.mutexes
  {
    var self := Self(k);
    var depth := (k.mutexes[m].depth + U32 - 1) % U32;
    if k.mutexes[m].owner != Some(self) then (k, Returns(NotOwner))
    else if depth > 0 then (k.(mutexes := k.mutexes[m := Mutex(Some(self), depth)]), Returns(OK))
    else
      var (s, woken) := WakeWaiter(Restore(k.s, self), MutexWaiters(m));
      (k.(s := s, mutexes := k.mutexes[m := Mutex(woken, if woken.Some? then 1 else 0)]), Returns(OK))
  }

  // ---- semaphore.c -----------------------------------------------------------------------

  function SemTake(k: Kernel, id: nat, timeout: nat): (Kernel, Out)
    requires id in k.sems
  {
    var c := k.sems[id];
    if c.count > 0 then (k.(sems := k.sems[id := c.(count := c.count - 1)]), Returns(OK))
    else if timeout == NO_WAIT then (k, Returns(Timeout))
    else (k.(s := BlockOn(k.s, Self(k), Taking(id, timeout))), Waits)
  }

  function SemTakeReturn(k: Kernel): (Kernel, Out) {
    (k.(s := Leave(k.s, Self(k))), Returns(T(k.s, Self(k)).result))
  }

  function SemGive(k: Kernel, id: nat): (Kernel, Out)
    requires id in k.sems
  {
    var c := k.sems[id];
    var (s, woken) := WakeWaiter(k.s, SemWaiters(id));
    if woken.Some? then (k.(s := s), Returns(OK))
    else if c.count < c.max then (k.(sems := k.sems[id := c.(count := c.count + 1)]), Returns(OK))
    else (k, Returns(OK))
  }

  // ---- queue.c ---------------------------------------------------------------------------

  function CopyIn(q: Queue, item: Item): Queue {
    if q.tail < |q.buffer| then
      q.(buffer := q.buffer[q.tail := item], tail := (q.tail + 1) % |q.buffer|, count := q.count + 1)
    else q
  }

  function CopyOut(q: Queue): (Queue, Item) {
    if q.head < |q.buffer| && q.count > 0 then
      (q.(head := (q.head + 1) % |q.buffer|, count := q.count - 1), q.buffer[q.head])
    else (q, 0)
  }

  function QueueSend(k: Kernel, id: nat, item: Item, timeout: nat): (Kernel, Out)
    requires id in k.queues
  {
    var q := k.queues[id];
    if q.count < |q.buffer| then
      (k.(queues := k.queues[id := CopyIn(q, item)], s := WakeWaiter(k.s, Receivers(id)).0), Returns(OK))
    else if timeout == NO_WAIT then (k, Returns(Full))
    else (k.(s := BlockOn(k.s, Self(k), Sending(id, item, timeout))), Waits)
  }

  function QueueSendReturn(k: Kernel, id: nat, item: Item): (Kernel, Out)
    requires id in k.queues
  {
    var q := k.queues[id];
    var left := k.(s := Leave(k.s, Self(k)));
    if T(k.s, Self(k)).result == Timeout then (left, Returns(Timeout))
    else if q.count < |q.buffer| then (left.(queues := k.queues[id := CopyIn(q, item)]), Returns(OK))
    else (left, Returns(Full))
  }

  function QueueReceive(k: Kernel, id: nat, timeout: nat): (Kernel, Out)
    requires id in k.queues
  {
    var q := k.queues[id];
    if q.count > 0 then
      var (q', item) := CopyOut(q);
      (k.(queues := k.queues[id := q'], s := WakeWaiter(k.s, Senders(id)).0), Got(item))
    else if timeout == NO_WAIT then (k, Returns(Empty))
    else (k.(s := BlockOn(k.s, Self(k), Receiving(id, timeout))), Waits)
  }

  function QueueReceiveReturn(k: Kernel, id: nat): (Kernel, Out)
    requires id in k.queues
  {
    var q := k.queues[id];
    var left := k.(s := Leave(k.s, Self(k)));
    if T(k.s, Self(k)).result == Timeout then (left, Returns(Timeout))
    else if q.count > 0 then var (q', item) := CopyOut(q); (left.(queues := k.queues[id := q']), Got(item))
    else (left, Returns(Empty))
  }

  function QueueSendFromIsr(k: Kernel, id: nat, item: Item): (Kernel, Out)
    requires id in k.queues
  {
    var q := k.queues[id];
    if q.count >= |q.buffer| then (k, Returns(Full))
    else (k.(queues := k.queues[id := CopyIn(q, item)], s := WakeWaiter(k.s, Receivers(id)).0), Returns(OK))
  }

  // ---- steps and runs --------------------------------------------------------------------

  /** Task code runs only on the RUNNING current task, which is not idle, at a point outside any kernel call. */
  predicate TaskCode(k: Kernel) {
    k.s.cur.Some? && Self(k) != IDLE && IsRunning(k.s, Self(k)) && T(k.s, Self(k)).call == NoCall
  }

  /** The current task has been switched back in, inside the call it blocked in. */
  predicate Resumed(k: Kernel) { k.s.cur.Some? && IsRunning(k.s, Self(k)) }

  predicate Enabled(k: Kernel, step: Step) {
    match step
    case Create(t, _) => t !in k.s.tasks && (k.s.cur == None || TaskCode(k))
    case Switch => CanDispatch(k.s)
    case SysTick => true
    case Delay(ticks) => TaskCode(k) && ticks < U32
    case DelayReturn => Resumed(k) && T(k.s, Self(k)).call.Delaying?
    case Suspend(t) => TaskCode(k) && t in k.s.tasks
    case Resume(t) => TaskCode(k) && t in k.s.tasks
    case Lock(m, timeout) => TaskCode(k) && m in k.mutexes && timeout < U32
    case LockReturn(m) => Resumed(k) && m in k.mutexes && T(k.s, Self(k)).call.Locking? && T(k.s, Self(k)).call.id == m
    case Unlock(m) => TaskCode(k) && m in k.mutexes
    case Take(id, timeout) => TaskCode(k) && id in k.sems && timeout < U32
    case TakeReturn(id) => Resumed(k) && id in k.sems && T(k.s, Self(k)).call.Taking? && T(k.s, Self(k)).call.id == id
    case Give(id) => TaskCode(k) && id in k.sems
    case GiveFromIsr(id) => id in k.sems
    case Send(q, _, timeout) => TaskCode(k) && q in k.queues && timeout < U32
    case SendReturn(q) => Resumed(k) && q in k.queues && T(k.s, Self(k)).call.Sending? && T(k.s, Self(k)).call.id == q
    case SendFromIsr(q, _) => q in k.queues
    case Receive(q, timeout) => TaskCode(k) && q in k.queues && timeout < U32
    case ReceiveReturn(q) =>
      Resumed(k) && q in k.queues && T(k.s, Self(k)).call.Receiving? && T(k.s, Self(k)).call.id == q
  }

  function Next(k: Kernel, step: Step): (Kernel, Out)
    requires Enabled(k, step)
  {
    match step
    case Create(t, prio) => TaskCreate(k, t, prio)
    case Switch => (k.(s := SelectNext(k.s)), Nothing)
    case SysTick => (k.(s := Tick(k.s)), Nothing)
    case Delay(ticks) => TaskDelay(k, ticks)
    case DelayReturn => (k.(s := Leave(k.s, Self(k))), Nothing)
    case Suspend(t) => (k.(s := SuspendTask(k.s, t)), Nothing)
    case Resume(t) => (k.(s := ResumeTask(k.s, t)), Nothing)
    case Lock(m, timeout) => MutexLock(k, m, timeout)
    case LockReturn(m) => MutexLockReturn(k, m)
    case Unlock(m) => MutexUnlock(k, m)
    case Take(id, timeout) => SemTake(k, id, timeout)
    case TakeReturn(_) => SemTakeReturn(k)
    case Give(id) => SemGive(k, id)
    case GiveFromIsr(id) => SemGive(k, id)
    case Send(q, item, timeout) => QueueSend(k, q, item, timeout)
    case SendReturn(q) => QueueSendReturn(k, q, T(k.s, Self(k)).call.item)
    case SendFromIsr(q, item) => QueueSendFromIsr(k, q, item)
    case Receive(q, timeout) => QueueReceive(k, q, timeout)
    case ReceiveReturn(q) => QueueReceiveReturn(k, q)
  }

  predicate Legal(k: Kernel, steps: seq<Step>)
    decreases |steps|
  {
    steps == [] || (Enabled(k, steps[0]) && Legal(Next(k, steps[0]).0, steps[1..]))
  }

  function Run(k: Kernel, steps: seq<Step>): Kernel
    requires Legal(k, steps)
    decreases |steps|
  {
    if steps == [] then k else Run(Next(k, steps[0]).0, steps[1..])
  }

  /** nimble_scheduler_init and the init calls of the application's objects. */
  predicate Boot(k: Kernel) {
    && k.s == CreateTask(Sched(map[], map[], {}, [], map[], 0, None, 0), IDLE, 0)
    && (forall m | m in k.mutexes :: k.mutexes[m] == Mutex(None, 0))
    && (forall q | q in k.queues :: k.queues[q] == Queue(k.queues[q].buffer, 0, 0, 0))
  }
}

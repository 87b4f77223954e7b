/**
 * What every step returns and what it leaves behind, told from its arguments and the state before: control blocks and
 * lists one by one, not the operations a step is made of. Every step keeps its contract, and the contract leaves
 * nothing open.
 */
module Contracts {
  import opened Base
  import opened Sequences
  import opened Scheduler
  import opened Membership
  import opened Ticking
  import opened Evolution
  import opened Kernel
  import opened Invariants
  import opened Effects
  import opened Signals
  import opened Queues

  // ---- the scheduler's part --------------------------------------------------------------

  /** The same tasks and the same lists. */
  ghost predicate SameSched(s: Sched, u: Sched) {
    && u.tasks.Keys == s.tasks.Keys && (forall t :: T(u, t) == T(s, t))
    && (forall n :: R(u, n) == R(s, n)) && (forall w :: W(u, w) == W(s, w))
    && u.bits == s.bits && u.delayed == s.delayed && u.tick == s.tick && u.cur == s.cur && u.arrivals == s.arrivals
  }

  /** `t` is a new task at the tail of the list of `prio`. */
  ghost predicate Appears(s: Sched, u: Sched, t: Tid, prio: nat) {
    && u.tasks.Keys == s.tasks.Keys + {t}
    && T(u, t).prio == T(u, t).base == prio && T(u, t).state == Ready && T(u, t).link == OnReady(prio)
    && T(u, t) == T(u, t).(event := None, wake := 0, result := OK, call := NoCall, answers := 0, arrived := 0)
    && (forall x :: x != t ==> T(u, x) == T(s, x))
    && (forall n :: R(u, n) == if n == prio then R(s, n) + [t] else R(s, n)) && (forall w :: W(u, w) == W(s, w))
    && u.bits == s.bits + {prio}
    && u.delayed == s.delayed && u.tick == s.tick && u.cur == s.cur && u.arrivals == s.arrivals
  }

  /** The call of `t` is over. */
  ghost predicate CallOver(s: Sched, u: Sched, t: Tid) {
    && u.tasks.Keys == s.tasks.Keys && T(u, t) == T(s, t).(call := NoCall, answers := 0)
    && (forall x :: x != t ==> T(u, x) == T(s, x))
    && (forall n :: R(u, n) == R(s, n)) && (forall w :: W(u, w) == W(s, w))
    && u.bits == s.bits && u.delayed == s.delayed && u.tick == s.tick && u.cur == s.cur && u.arrivals == s.arrivals
  }

  /**
   * The head of wait list `w`, if there is one, is told OK and goes from both its lists to the tail of the ready list
   * of its priority; `down` is back at its base priority.
   */
  ghost predicate HeadWakes(s: Sched, u: Sched, w: WaitList, down: Option<Tid>) {
    var q := W(s, w);
    var head := if q == [] then None else Some(q[0]);
    var p := if q == [] then 0 else T(s, q[0]).prio;
    && u.tasks.Keys == s.tasks.Keys && u.tick == s.tick && u.cur == s.cur && u.arrivals == s.arrivals
    && (forall x: Tid :: head == Some(x) ==> T(u, x) == T(s, x).(state := Ready, link := OnReady(p), event := None,
                                                            result := OK, answers := T(s, x).answers + 1))
    && (forall x: Tid :: head != Some(x) ==>
          T(u, x) == if down == Some(x) then T(s, x).(prio := T(s, x).base) else T(s, x))
    && (forall n :: R(u, n) == if head.Some? && n == p then R(s, n) + [head.value] else R(s, n))
    && (forall v :: W(u, v) == if head.Some? && v == w then q[1..] else W(s, v))
    && u.delayed == (if head.Some? then Without(s.delayed, head.value) else s.delayed)
    && u.bits == (if head.Some? then s.bits + {p} else s.bits)
  }

  /** `t` is due at the next tick. */
  predicate Overdue(s: Sched, t: Tid) {
    t in s.delayed && SignedDiff((s.tick + 1) % U32, T(s, t).wake) >= 0
  }

  /** The tasks of `q` of priority `n` that are due at the next tick, in order. */
  function OverdueAt(s: Sched, q: seq<Tid>, n: nat): seq<Tid> {
    if q == [] then []
    else (if Overdue(s, q[0]) && T(s, q[0]).prio == n then [q[0]] else []) + OverdueAt(s, q[1..], n)
  }

  /** The clock moves on, and exactly the tasks due are told that they have timed out. */
  ghost predicate Expires(s: Sched, u: Sched) {
    var due := set t | t in s.delayed && Overdue(s, t);
    && u.tasks.Keys == s.tasks.Keys && u.tick == (s.tick + 1) % U32 && u.cur == s.cur && u.arrivals == s.arrivals
    && (forall x :: T(u, x) == if x in due then T(s, x).(state := Ready, link := OnReady(T(s, x).prio), event := None,
                                                         result := Timeout, answers := T(s, x).answers + 1)
                               else T(s, x))
    && (forall n :: R(u, n) == R(s, n) + OverdueAt(s, s.delayed, n))
    && (forall n :: n in u.bits <==> n in s.bits || OverdueAt(s, s.delayed, n) != [])
    && (forall w :: W(u, w) == Remaining(W(s, w), due)) && u.delayed == Remaining(s.delayed, due)
  }

  /** The running task, if there is one, has its turn behind its peers. */
  function Runner(s: Sched): Option<Tid> {
    if s.cur.Some? && T(s, s.cur.value).state == Running then s.cur else None
  }

  function Queueing(s: Sched, n: nat): seq<Tid> {
    if Runner(s).Some? && n == T(s, Runner(s).value).prio then R(s, n) + [Runner(s).value] else R(s, n)
  }

  function Occupied(s: Sched): set<nat> {
    if Runner(s).Some? then s.bits + {T(s, Runner(s).value).prio} else s.bits
  }

  /** The head of the list at the highest level runs next, and the bit of its priority is cleared over an empty list. */
  ghost predicate Dispatches(s: Sched, u: Sched) {
    exists h: nat :: h in Occupied(s) && (forall n :: n in Occupied(s) ==> n <= h) && DispatchesFrom(s, u, h)
  }

  ghost predicate DispatchesFrom(s: Sched, u: Sched, h: nat) {
    var q := Queueing(s, h);
    && q != [] && u.cur == Some(q[0]) && T(u, q[0]) == T(s, q[0]).(state := Running, link := Off)
    && (forall x: Tid :: x != q[0] ==> T(u, x) == if Runner(s) == Some(x)
                                             then T(s, x).(state := Ready, link := OnReady(T(s, x).prio)) else T(s, x))
    && (forall n :: R(u, n) == if n == h then q[1..] else Queueing(s, n)) && (forall w :: W(u, w) == W(s, w))
    && u.bits == (if R(u, T(s, q[0]).prio) == [] then Occupied(s) - {T(s, q[0]).prio} else Occupied(s))
    && u.tasks.Keys == s.tasks.Keys && u.delayed == s.delayed && u.tick == s.tick && u.arrivals == s.arrivals
  }

  /** `t`, if it was READY or RUNNING, is suspended; a READY one leaves its list. */
  ghost predicate IsSetAside(s: Sched, u: Sched, t: Tid) {
    var c := T(s, t);
    var listed := c.state == Ready;
    && u.tasks.Keys == s.tasks.Keys && u.tick == s.tick && u.cur == s.cur && u.arrivals == s.arrivals
    && T(u, t) == (if c.state == Ready then c.(state := Suspended, link := Off)
                   else if c.state == Running then c.(state := Suspended) else c)
    && (forall x :: x != t ==> T(u, x) == T(s, x))
    && (forall n :: R(u, n) == if listed && c.link == OnReady(n) then Without(R(s, n), t) else R(s, n))
    && (forall w :: W(u, w) == W(s, w)) && u.delayed == s.delayed
    && u.bits == (if listed && R(u, c.prio) == [] then s.bits - {c.prio} else s.bits)
  }

  /** `t`, if it was suspended, is at the tail of the ready list of its priority. */
  ghost predicate IsBroughtBack(s: Sched, u: Sched, t: Tid) {
    var c := T(s, t);
    var back := c.state == Suspended;
    && u.tasks.Keys == s.tasks.Keys && u.tick == s.tick && u.cur == s.cur && u.arrivals == s.arrivals
    && T(u, t) == (if back then c.(state := Ready, link := OnReady(c.prio)) else c)
    && (forall x :: x != t ==> T(u, x) == T(s, x))
    && (forall n :: R(u, n) == if back && n == c.prio then R(s, n) + [t] else R(s, n))
    && (forall w :: W(u, w) == W(s, w)) && u.delayed == s.delayed
    && u.bits == (if back then s.bits + {c.prio} else s.bits)
  }

  // ---- the queues' part ------------------------------------------------------------------

  /** What queue `q` holds, oldest first. */
  ghost function Items(k: Kernel, q: nat): (items: seq<Item>)
    requires QueuesOk(k) && q in k.queues
    ensures |items| == k.queues[q].count
  {
    Contents(k.queues[q])
  }

  ghost predicate QueueIs(k: Kernel, q: nat, capacity: nat, items: seq<Item>) {
    q in k.queues && QueueOk(k.queues[q]) && |k.queues[q].buffer| == capacity && Contents(k.queues[q]) == items
  }

  /** Queue `q` holds `items` now; the other queues, the mutexes and the semaphores are as they were. */
  ghost predicate Holds(k: Kernel, u: Kernel, q: nat, items: seq<Item>)
    requires q in k.queues
  {
    && QueueIs(u, q, |k.queues[q].buffer|, items)
    && u == k.(s := u.s, queues := k.queues[q := u.queues[q]])
  }

  // ---- the contract ----------------------------------------------------------------------

  predicate CallsTask(step: Step) { !CallsMutex(step) && !CallsSemaphore(step) && !CallsQueue(step) }
  predicate CallsMutex(step: Step) { step.Lock? || step.LockReturn? || step.Unlock? }
  predicate CallsSemaphore(step: Step) { step.Take? || step.TakeReturn? || step.Give? || step.GiveFromIsr? }
  predicate CallsQueue(step: Step) {
    step.Send? || step.SendReturn? || step.SendFromIsr? || step.Receive? || step.ReceiveReturn?
  }

  ghost predicate TaskContract(k: Kernel, step: Step, u: Kernel, out: Out) {
    match step
    case Create(t, prio) =>
      if prio < MAX_PRIORITIES then out == Returns(OK) && u == k.(s := u.s) && Appears(k.s, u.s, t, prio)
      else out == Returns(InvalidArg) && u == k
    case Delay(ticks) =>
      if ticks == 0 then out == Nothing && u == k
      else out == Waits && u == k.(s := u.s) && Sleeps(k.s, u.s, Self(k), step, None)
    case DelayReturn => out == Nothing && u == k.(s := u.s) && CallOver(k.s, u.s, Self(k))
    case Suspend(t) => out == Nothing && u == k.(s := u.s) && IsSetAside(k.s, u.s, t)
    case Resume(t) => out == Nothing && u == k.(s := u.s) && IsBroughtBack(k.s, u.s, t)
    case Switch => out == Nothing && u == k.(s := u.s) && Dispatches(k.s, u.s)
    case SysTick => out == Nothing && u == k.(s := u.s) && Expires(k.s, u.s)
    case _ => true
  }

  ghost predicate MutexContract(k: Kernel, step: Step, u: Kernel, out: Out)
    requires Enabled(k, step)
  {
    var self := Self(k);
    match step
    case Lock(m, timeout) =>
      var c := k.mutexes[m];
      if c.owner == None then out == Returns(OK) && u == k.(mutexes := k.mutexes[m := Mutex(Some(self), 1)])
      else if c.owner == Some(self) then
        out == Returns(OK) && u == k.(mutexes := k.mutexes[m := Mutex(Some(self), (c.depth + 1) % U32)])
      else if timeout == NO_WAIT then out == Returns(Timeout) && u == k
      else out == Waits && u == k.(s := u.s) && Sleeps(k.s, u.s, self, step, c.owner)
    case LockReturn(m) =>
      && out == Returns(if k.mutexes[m].owner == Some(self) then OK else Timeout)
      && u == k.(s := u.s) && CallOver(k.s, u.s, self)
    case Unlock(m) =>
      var c, q := k.mutexes[m], W(k.s, MutexWaiters(m));
      var left := (c.depth + U32 - 1) % U32;
      if c.owner != Some(self) then out == Returns(NotOwner) && u == k
      else if left > 0 then out == Returns(OK) && u == k.(mutexes := k.mutexes[m := Mutex(Some(self), left)])
      else
        var after := if q == [] then Mutex(None, 0) else Mutex(Some(q[0]), 1);
        && out == Returns(OK) && u == k.(s := u.s, mutexes := k.mutexes[m := after])
        && HeadWakes(k.s, u.s, MutexWaiters(m), Some(self))
    case _ => true
  }

  ghost predicate SemaphoreContract(k: Kernel, step: Step, u: Kernel, out: Out)
    requires Enabled(k, step)
  {
    match step
    case Take(id, timeout) =>
      var c := k.sems[id];
      if c.count > 0 then out == Returns(OK) && u == k.(sems := k.sems[id := Semaphore(c.count - 1, c.max)])
      else if timeout == NO_WAIT then out == Returns(Timeout) && u == k
      else out == Waits && u == k.(s := u.s) && Sleeps(k.s, u.s, Self(k), step, None)
    case TakeReturn(_) =>
      out == Returns(T(k.s, Self(k)).result) && u == k.(s := u.s) && CallOver(k.s, u.s, Self(k))
    case Give(id) => GiveContract(k, id, u, out)
    case GiveFromIsr(id) => GiveContract(k, id, u, out)
    case _ => true
  }

  ghost predicate GiveContract(k: Kernel, id: nat, u: Kernel, out: Out)
    requires id in k.sems
  {
    var c := k.sems[id];
    && out == Returns(OK)
    && if W(k.s, SemWaiters(id)) != [] then u == k.(s := u.s) && HeadWakes(k.s, u.s, SemWaiters(id), None)
       else if c.count < c.max then u == k.(sems := k.sems[id := Semaphore(c.count + 1, c.max)])
       else u == k
  }

  ghost predicate QueueContract(k: Kernel, step: Step, u: Kernel, out: Out)
    requires QueuesOk(k) && Enabled(k, step)
  {
    match step
    case Send(q, item, timeout) =>
      if HasRoom(k, q) then SendContract(k, q, item, u, out) && HeadWakes(k.s, u.s, Receivers(q), None)
      else if timeout == NO_WAIT then out == Returns(Full) && u == k
      else out == Waits && u == k.(s := u.s) && Sleeps(k.s, u.s, Self(k), step, None)
    case SendFromIsr(q, item) =>
      if HasRoom(k, q) then SendContract(k, q, item, u, out) && HeadWakes(k.s, u.s, Receivers(q), None)
      else out == Returns(Full) && u == k
    case SendReturn(q) =>
      && CallOver(k.s, u.s, Self(k))
      && if T(k.s, Self(k)).result == Timeout then out == Returns(Timeout) && u == k.(s := u.s)
         else if HasRoom(k, q) then SendContract(k, q, T(k.s, Self(k)).call.item, u, out)
         else out == Returns(Full) && u == k.(s := u.s)
    case Receive(q, timeout) =>
      if HasItem(k, q) then ReceiveContract(k, q, u, out) && HeadWakes(k.s, u.s, Senders(q), None)
      else if timeout == NO_WAIT then out == Returns(Empty) && u == k
      else out == Waits && u == k.(s := u.s) && Sleeps(k.s, u.s, Self(k), step, None)
    case ReceiveReturn(q) =>
      && CallOver(k.s, u.s, Self(k))
      && if T(k.s, Self(k)).result == Timeout then out == Returns(Timeout) && u == k.(s := u.s)
         else if HasItem(k, q) then ReceiveContract(k, q, u, out)
         else out == Returns(Empty) && u == k.(s := u.s)
    case _ => true
  }

  /** The item is the last of the queue now. */
  ghost predicate SendContract(k: Kernel, q: nat, item: Item, u: Kernel, out: Out)
    requires QueuesOk(k) && q in k.queues
  {
    out == Returns(OK) && Holds(k, u, q, Items(k, q) + [item])
  }

  /** The oldest item goes to the caller. */
  ghost predicate ReceiveContract(k: Kernel, q: nat, u: Kernel, out: Out)
    requires QueuesOk(k) && q in k.queues && HasItem(k, q)
  {
    out == Got(Items(k, q)[0]) && Holds(k, u, q, Items(k, q)[1..])
  }

  predicate HasRoom(k: Kernel, q: nat)
    requires q in k.queues
  {
    k.queues[q].count < |k.queues[q].buffer|
  }

  predicate HasItem(k: Kernel, q: nat)
    requires q in k.queues
  {
    k.queues[q].count > 0
  }

  ghost predicate Contract(k: Kernel, step: Step, u: Kernel, out: Out)
    requires QueuesOk(k) && Enabled(k, step)
  {
    TaskContract(k, step, u, out) && MutexContract(k, step, u, out) && SemaphoreContract(k, step, u, out)
        && QueueContract(k, step, u, out)
  }

  // ---- every step keeps its contract -----------------------------------------------------

  /** A signal wakes the head, in a state in which `down` is back at its base priority already. */
  lemma SignalWakes(s: Sched, b: Sched, w: WaitList, down: Option<Tid>) returns (u: Sched)
    requires Linked(b) && AllPlaced(b) && b == s.(tasks := b.tasks) && b.tasks.Keys == s.tasks.Keys
    requires forall x: Tid :: T(b, x) == if down == Some(x) then T(s, x).(prio := T(s, x).base) else T(s, x)
    requires (forall n :: R(b, n) == R(s, n)) && (forall v :: W(b, v) == W(s, v))
    requires down.Some? ==> down.value !in W(s, w)
    ensures u == WakeWaiter(b, w).0 && HeadWakes(s, u, w, down)
    ensures WakeWaiter(b, w).1 == if W(s, w) == [] then None else Some(W(s, w)[0])
  {
    hide Linked, AllPlaced, MakeReady, T, R, W, Without;
    u := b;
    if W(b, w) != [] {
      WaiterIsBlocked(b, w);
      AtDelayed(b, w);
      WithoutHead(W(b, w));
      u := MakeReadyFrame(b, W(b, w)[0], OK);
    }
  }

  /** A waiter without a timeout is not on the delayed list. */
  lemma AtDelayed(s: Sched, w: WaitList)
    requires Linked(s) && AllPlaced(s) && W(s, w) != []
    ensures T(s, W(s, w)[0]).link != OnDelayed ==> Without(s.delayed, W(s, w)[0]) == s.delayed
  {
    DelayedIsBlocked(s);
  }

  lemma SignalMeets(k: Kernel, w: WaitList) returns (u: Sched)
    requires Inv(k)
    ensures u == WakeWaiter(k.s, w).0 && HeadWakes(k.s, u, w, None)
    ensures WakeWaiter(k.s, w).1 == if W(k.s, w) == [] then None else Some(W(k.s, w)[0])
  {
    hide Inv, Linked, AllPlaced, HeadWakes, WakeWaiter, T, R, W;
    MutexesOfInv(k);
    u := SignalWakes(k.s, k.s, w, None);
  }

  lemma Finishing(k: Kernel)
    requires Inv(k) && Resumed(k)
    ensures CallOver(k.s, Leave(k.s, Self(k)), Self(k))
  {
    hide Inv, Placed, Leave, T, R, W;
    SelfFacts(k);
    var u := LeaveFrame(k.s, Self(k));
  }

  lemma CreateMeets(k: Kernel, t: Tid, prio: nat)
    requires Inv(k) && Enabled(k, Create(t, prio))
    ensures TaskContract(k, Create(t, prio), Next(k, Create(t, prio)).0, Next(k, Create(t, prio)).1)
  {
    hide Inv, TaskCode, AddReady, SetT, T, R, W;
    var c := Tcb(prio, prio, Ready, Off, None, 0, OK, NoCall, 0, 0);
    var v := SetTFrame(k.s, t, c);
    var u := AddReadyFrame(v, t);
  }

  lemma SwitchMeets(k: Kernel)
    requires Inv(k) && Enabled(k, Switch)
    ensures Dispatches(k.s, SelectNext(k.s))
  {
    hide Inv, Linked, AllPlaced, SelectNext, Requeued, TopLevel, Chosen, CanDispatch, DispatchesFrom, Occupied, T, R, W;
    MutexesOfInv(k);
    CurrentExists(k.s);
    TopIsHighest(k.s);
    RequeuedQueues(k.s);
    SwitchDispatches(k.s);
  }

  lemma RequeuedQueues(s: Sched)
    requires s.cur.Some? ==> s.cur.value in s.tasks
    ensures var v := Requeued(s);
      && v.bits == Occupied(s) && (forall n :: R(v, n) == Queueing(s, n)) && v.delayed == s.delayed
      && (forall x: Tid :: T(v, x) == if Runner(s) == Some(x)
                                      then T(s, x).(state := Ready, link := OnReady(T(s, x).prio)) else T(s, x))
  {
    hide Requeued, T, R, W;
    var v := RequeuedFrame(s);
  }

  lemma SwitchDispatches(s: Sched)
    requires Linked(s) && AllPlaced(s) && CanDispatch(s) && (s.cur.Some? ==> s.cur.value in s.tasks)
    ensures DispatchesFrom(s, SelectNext(s), TopLevel(Requeued(s)))
  {
    hide Linked, AllPlaced, SelectNext, Requeued, TopLevel, Chosen, CanDispatch, Queueing, Occupied, T, R, W;
    TopIsHighest(s);
    RequeuedQueues(s);
    var v, u := SelectNextFrame(s);
    v := RequeuedFrame(s);
  }

  lemma TopIsHighest(s: Sched)
    requires Linked(s) && AllPlaced(s) && CanDispatch(s)
    ensures var v := Requeued(s);
      && TopLevel(v) in v.bits && (forall n :: n in v.bits ==> n <= TopLevel(v)) && R(v, TopLevel(v)) != []
      && Chosen(s) == R(v, TopLevel(v))[0]
  {
    hide Linked, AllPlaced, TopLevel, Requeued, R;
    RequeuedLinked(s);
    var v := Requeued(s);
    BitsOf(v);
    var l :| l in v.bits;
    TopOfBits(v, l);
  }

  lemma TickMeets(k: Kernel)
    requires Inv(k)
    ensures Expires(k.s, Tick(k.s))
  {
    hide Inv, Linked, AllPlaced, Tick, Advanced, Due, DueAt, Overdue, OverdueAt, Remaining, T, R, W;
    MutexesOfInv(k);
    DueIsOverdue(k.s);
    var u, due := TickFrame(k.s);
  }

  lemma DueIsOverdue(s: Sched)
    ensures (set t | t in s.delayed && Due(Advanced(s), t)) == set t | t in s.delayed && Overdue(s, t)
    ensures forall n: nat :: OverdueAt(s, s.delayed, n) == DueAt(Advanced(s), s.delayed, n)
  {
    forall n: nat ensures OverdueAt(s, s.delayed, n) == DueAt(Advanced(s), s.delayed, n) {
      OverdueIsDue(s, s.delayed, n);
    }
  }

  lemma {:induction false} OverdueIsDue(s: Sched, q: seq<Tid>, n: nat)
    requires forall t :: t in q ==> t in s.delayed
    ensures OverdueAt(s, q, n) == DueAt(Advanced(s), q, n)
  {
    if q != [] { OverdueIsDue(s, q[1..], n); }
  }

  lemma TaskMeets(k: Kernel, step: Step)
    requires Inv(k) && Enabled(k, step)
    ensures TaskContract(k, step, Next(k, step).0, Next(k, step).1)
  {
    hide Inv, TaskCode, Resumed, CanDispatch, SelectNext, Tick, CreateTask, SuspendTask, ResumeTask, BlockOn, Leave,
         Sleeps, Dispatches, Expires, CallOver, Appears, IsSetAside, IsBroughtBack, T;
    match step
    case Create(t, prio) => CreateMeets(k, t, prio);
    case Delay(ticks) => if ticks > 0 { SleepsAsAsked(k, step); }
    case DelayReturn => Finishing(k);
    case Suspend(t) => SuspendMeets(k, t);
    case Resume(t) => ResumeMeets(k, t);
    case Switch => SwitchMeets(k);
    case SysTick => TickMeets(k);
    case _ =>
  }

  lemma SuspendMeets(k: Kernel, t: Tid)
    requires Inv(k) && t in k.s.tasks
    ensures IsSetAside(k.s, SuspendTask(k.s, t), t)
  {
    hide Inv, SuspendTask, T, R, W, Without;
    var u := SuspendEffect(k.s, t);
    SuspendMovesNoDelay(k, t);
  }

  lemma SuspendMovesNoDelay(k: Kernel, t: Tid)
    requires Inv(k) && t in k.s.tasks
    ensures SuspendTask(k.s, t).delayed == k.s.delayed
  {
    assert Placed(k.s, t);
  }

  lemma ResumeMeets(k: Kernel, t: Tid)
    requires Inv(k) && t in k.s.tasks
    ensures IsBroughtBack(k.s, ResumeTask(k.s, t), t)
  {
    hide Inv, T, R, W;
    var u := ResumeEffect(k.s, t);
  }

  lemma MutexMeets(k: Kernel, step: Step)
    requires Inv(k) && Enabled(k, step)
    ensures MutexContract(k, step, Next(k, step).0, Next(k, step).1)
  {
    hide Inv, BlockOn, Boost, Sleeps, CallOver, HeadWakes, MutexLock, MutexUnlock, MutexLockReturn, TaskCode, Resumed,
         T, W;
    match step
    case Lock(m, timeout) => LockMeets(k, m, timeout);
    case LockReturn(m) => LockReturnMeets(k, m);
    case Unlock(m) => UnlockMeets(k, m);
    case _ =>
  }

  lemma LockMeets(k: Kernel, m: nat, timeout: nat)
    requires Inv(k) && Enabled(k, Lock(m, timeout))
    ensures MutexContract(k, Lock(m, timeout), MutexLock(k, m, timeout).0, MutexLock(k, m, timeout).1)
  {
    hide Inv, BlockOn, Boost, Sleeps, T;
    if Blocks(k, Lock(m, timeout)) { SleepsAsAsked(k, Lock(m, timeout)); }
  }

  lemma LockReturnMeets(k: Kernel, m: nat)
    requires Inv(k) && Enabled(k, LockReturn(m))
    ensures MutexContract(k, LockReturn(m), MutexLockReturn(k, m).0, MutexLockReturn(k, m).1)
  {
    Finishing(k);
    EnterIsOver(k);
    hide Inv, Enter, Leave, CallOver, T;
  }

  lemma EnterIsOver(k: Kernel)
    requires Inv(k) && Resumed(k)
    ensures CallOver(k.s, Enter(k.s, Self(k), NoCall), Self(k))
  {
    hide Inv, Placed, T, R, W, SetT;
    SelfFacts(k);
    var u := SetTFrame(k.s, Self(k), T(k.s, Self(k)).(call := NoCall, answers := 0));
  }

  lemma UnlockMeets(k: Kernel, m: nat)
    requires Inv(k) && Enabled(k, Unlock(m))
    ensures MutexContract(k, Unlock(m), MutexUnlock(k, m).0, MutexUnlock(k, m).1)
  {
    hide Inv, Linked, AllPlaced, Placed, Restore, WakeWaiter, HeadWakes, TaskCode, T, R, W;
    SelfFacts(k);
    if Releases(k, m) {
      NotItsOwnWaiter(k, m);
      var r, w, v := UnlockHandsOver(k, m);
      RestoredState(k.s, Self(k));
      var u := SignalWakes(k.s, r, MutexWaiters(m), Some(Self(k)));
    }
  }

  lemma NotItsOwnWaiter(k: Kernel, m: nat)
    requires Inv(k) && TaskCode(k)
    ensures Self(k) !in W(k.s, MutexWaiters(m))
  {
    SelfFacts(k);
    MutexesOfInv(k);
    WaiterIsBlocked(k.s, MutexWaiters(m));
  }

  lemma RestoredState(s: Sched, t: Tid)
    requires t in s.tasks
    ensures var r := Restore(s, t);
      && r == s.(tasks := r.tasks) && r.tasks.Keys == s.tasks.Keys
      && (forall x: Tid :: T(r, x) == if Some(t) == Some(x) then T(s, x).(prio := T(s, x).base) else T(s, x))
      && (forall n :: R(r, n) == R(s, n)) && (forall w :: W(r, w) == W(s, w))
  {}

  lemma GiveMeets(k: Kernel, id: nat)
    requires Inv(k) && id in k.sems
    ensures GiveContract(k, id, SemGive(k, id).0, SemGive(k, id).1)
  {
    hide Inv, HeadWakes, MakeReady, T, W;
    var u := SignalMeets(k, SemWaiters(id));
    hide WakeWaiter;
  }

  lemma SemaphoreMeets(k: Kernel, step: Step)
    requires Inv(k) && Enabled(k, step)
    ensures SemaphoreContract(k, step, Next(k, step).0, Next(k, step).1)
  {
    hide Inv, TaskCode, Resumed, BlockOn, Leave, SemGive, GiveContract, Sleeps, CallOver, T;
    match step
    case Take(id, timeout) => if Blocks(k, step) { SleepsAsAsked(k, step); }
    case TakeReturn(_) => Finishing(k);
    case Give(id) => GiveMeets(k, id);
    case GiveFromIsr(id) => GiveMeets(k, id);
    case _ =>
  }

  lemma StoreMeets(k: Kernel, q: nat, item: Item, u: Kernel)
    requires Inv(k) && q in k.queues && HasRoom(k, q)
    requires u == k.(s := u.s, queues := k.queues[q := CopyIn(k.queues[q], item)])
    ensures SendContract(k, q, item, u, Returns(OK))
  {
    QueueOfInv(k, q);
    hide Inv, Contents, QueueOk;
    CopyInAppends(k.queues[q], item);
  }

  lemma FetchMeets(k: Kernel, q: nat, u: Kernel)
    requires Inv(k) && q in k.queues && HasItem(k, q)
    requires u == k.(s := u.s, queues := k.queues[q := CopyOut(k.queues[q]).0])
    ensures ReceiveContract(k, q, u, Got(CopyOut(k.queues[q]).1))
  {
    QueueOfInv(k, q);
    hide Inv, Contents, QueueOk;
    CopyOutPops(k.queues[q]);
    var a, b := Contents(k.queues[q]), Contents(CopyOut(k.queues[q]).0);
    assert a[0] == ([CopyOut(k.queues[q]).1] + b)[0] && a[1..] == ([CopyOut(k.queues[q]).1] + b)[1..] == b;
  }

  lemma SendMeets(k: Kernel, step: Step)
    requires Inv(k) && Enabled(k, step) && (step.Send? || step.SendFromIsr?)
    ensures QueueContract(k, step, Next(k, step).0, Next(k, step).1)
  {
    hide Inv, TaskCode, BlockOn, CopyIn, WakeWaiter, SendContract, HeadWakes, Sleeps, T;
    if HasRoom(k, step.q) {
      var u := SignalMeets(k, Receivers(step.q));
      StoreMeets(k, step.q, step.item, Next(k, step).0);
    } else if Blocks(k, step) {
      SleepsAsAsked(k, step);
    }
  }

  lemma ReceiveMeets(k: Kernel, q: nat, timeout: nat)
    requires Inv(k) && Enabled(k, Receive(q, timeout))
    ensures QueueContract(k, Receive(q, timeout), QueueReceive(k, q, timeout).0, QueueReceive(k, q, timeout).1)
  {
    hide Inv, TaskCode, BlockOn, CopyOut, WakeWaiter, ReceiveContract, HeadWakes, Sleeps, T;
    var step := Receive(q, timeout);
    if HasItem(k, q) {
      var u := SignalMeets(k, Senders(q));
      FetchMeets(k, q, QueueReceive(k, q, timeout).0);
    } else if Blocks(k, step) {
      SleepsAsAsked(k, step);
    }
  }

  lemma ReturnMeets(k: Kernel, step: Step)
    requires Inv(k) && Enabled(k, step) && (step.SendReturn? || step.ReceiveReturn?)
    ensures QueueContract(k, step, Next(k, step).0, Next(k, step).1)
  {
    hide Inv, Resumed, Leave, CopyIn, CopyOut, SendContract, ReceiveContract, CallOver;
    Finishing(k);
    var u := Next(k, step).0;
    if T(k.s, Self(k)).result != Timeout {
      if step.SendReturn? && HasRoom(k, step.q) { StoreMeets(k, step.q, T(k.s, Self(k)).call.item, u); }
      if step.ReceiveReturn? && HasItem(k, step.q) { FetchMeets(k, step.q, u); }
    }
  }

  lemma QueueMeets(k: Kernel, step: Step)
    requires Inv(k) && Enabled(k, step)
    ensures QueuesOk(k) && QueueContract(k, step, Next(k, step).0, Next(k, step).1)
  {
    MutexesOfInv(k);
    if step.Send? || step.SendFromIsr? { SendMeets(k, step); }
    else if step.SendReturn? || step.ReceiveReturn? { ReturnMeets(k, step); }
    else if step.Receive? { ReceiveMeets(k, step.q, step.timeout); }
  }

  /** Every step, in every reachable state, does what its contract says. */
  lemma EveryStepMeets(k: Kernel, step: Step)
    requires Inv(k) && Enabled(k, step)
    ensures QueuesOk(k) && Contract(k, step, Next(k, step).0, Next(k, step).1)
  {
    hide Inv, QueuesOk, Enabled, Next, TaskContract, MutexContract, SemaphoreContract, QueueContract;
    TaskMeets(k, step);
    MutexMeets(k, step);
    SemaphoreMeets(k, step);
    QueueMeets(k, step);
  }

  // ---- the contract leaves nothing open --------------------------------------------------

  ghost predicate SameQueue(a: Queue, b: Queue) {
    a == b || (QueueOk(a) && QueueOk(b) && |a.buffer| == |b.buffer| && Contents(a) == Contents(b))
  }

  /** The same for everybody who uses the kernel: where a ring buffer begins in its memory is not told. */
  ghost predicate SameKernel(u: Kernel, v: Kernel) {
    && SameSched(u.s, v.s) && u.mutexes == v.mutexes && u.sems == v.sems && u.queues.Keys == v.queues.Keys
    && forall q :: q in u.queues ==> SameQueue(u.queues[q], v.queues[q])
  }

  lemma OnePlaceInOrder(u: Sched, v: Sched, q: seq<Tid>, a: seq<Tid>, b: seq<Tid>, t: Tid)
    requires JoinsInOrder(u, q, a, t) && JoinsInOrder(v, q, b, t) && forall x :: T(u, x) == T(v, x)
    ensures a == b
  {
    hide T, InsertAt;
    var i: nat :| i <= |q| && a == InsertAt(q, i, t) && (forall j :: 0 <= j < i ==> T(u, q[j]).prio >= T(u, t).prio)
                  && (i < |q| ==> T(u, q[i]).prio < T(u, t).prio);
    var j: nat :| j <= |q| && b == InsertAt(q, j, t) && (forall i :: 0 <= i < j ==> T(v, q[i]).prio >= T(v, t).prio)
                  && (j < |q| ==> T(v, q[j]).prio < T(v, t).prio);
    assert i == j;
  }

  lemma SleepsOneWay(s: Sched, u: Sched, v: Sched, t: Tid, step: Step, owner: Option<Tid>)
    requires Sleeps(s, u, t, step, owner) && Sleeps(s, v, t, step, owner)
    ensures SameSched(u, v)
  {
    hide JoinsInOrder, T, R, W, CallOf, ListOf, Patience;
    assert forall x :: T(u, x) == T(v, x);
    if ListOf(step).Some? {
      var w := ListOf(step).value;
      OnePlaceInOrder(u, v, W(s, w), W(u, w), W(v, w), t);
    }
  }

  lemma WakesOneWay(s: Sched, u: Sched, v: Sched, w: WaitList, down: Option<Tid>)
    requires HeadWakes(s, u, w, down) && HeadWakes(s, v, w, down)
    ensures SameSched(u, v)
  {
    hide T, R, W, Without;
  }

  lemma ExpiresOneWay(s: Sched, u: Sched, v: Sched)
    requires Expires(s, u) && Expires(s, v)
    ensures SameSched(u, v)
  {
    hide T, R, W, Remaining, Overdue, OverdueAt;
    assert u.bits == v.bits;
  }

  lemma DispatchesOneWay(s: Sched, u: Sched, v: Sched)
    requires Dispatches(s, u) && Dispatches(s, v)
    ensures SameSched(u, v)
  {
    hide T, R, W, Runner, Queueing, Occupied;
    var h: nat :| h in Occupied(s) && (forall n :: n in Occupied(s) ==> n <= h) && DispatchesFrom(s, u, h);
    var l: nat :| l in Occupied(s) && (forall n :: n in Occupied(s) ==> n <= l) && DispatchesFrom(s, v, l);
    assert h == l;
  }

  lemma SameScheduler(k: Kernel, u: Kernel, v: Kernel)
    requires u == k.(s := u.s) && v == k.(s := v.s) && SameSched(u.s, v.s)
    ensures SameKernel(u, v)
  {
    hide SameSched;
  }

  lemma NothingDiffers(k: Kernel)
    ensures SameKernel(k, k)
  {}

  lemma HoldsOneWay(k: Kernel, u: Kernel, v: Kernel, q: nat, items: seq<Item>)
    requires q in k.queues && Holds(k, u, q, items) && Holds(k, v, q, items) && SameSched(u.s, v.s)
    ensures SameKernel(u, v)
  {
    hide SameSched, QueueOk, Contents;
  }

  lemma TaskOneWay(k: Kernel, step: Step, u: Kernel, v: Kernel, a: Out, b: Out)
    requires Enabled(k, step) && CallsTask(step) && TaskContract(k, step, u, a) && TaskContract(k, step, v, b)
    ensures a == b && SameKernel(u, v)
  {
    NothingDiffers(k);
    hide Enabled, Sleeps, Dispatches, Expires, SameKernel, T, R, W, Without;
    match step
    case Delay(ticks) => if ticks > 0 { SleepsOneWay(k.s, u.s, v.s, Self(k), step, None); SameScheduler(k, u, v); }
    case Switch => DispatchesOneWay(k.s, u.s, v.s); SameScheduler(k, u, v);
    case SysTick => ExpiresOneWay(k.s, u.s, v.s); SameScheduler(k, u, v);
    case Create(t, prio) => if prio < MAX_PRIORITIES { AppearsOneWay(k.s, u.s, v.s, t, prio); SameScheduler(k, u, v); }
    case _ => SameScheduler(k, u, v);
  }

  lemma AppearsOneWay(s: Sched, u: Sched, v: Sched, t: Tid, prio: nat)
    requires Appears(s, u, t, prio) && Appears(s, v, t, prio)
    ensures SameSched(u, v)
  {
    hide T, R, W;
    assert T(u, t) == Tcb(prio, prio, Ready, OnReady(prio), None, 0, OK, NoCall, 0, 0) == T(v, t);
  }

  lemma OverOneWay(s: Sched, u: Sched, v: Sched, t: Tid)
    requires CallOver(s, u, t) && CallOver(s, v, t)
    ensures SameSched(u, v)
  {
    hide T, R, W;
  }

  lemma MutexOneWay(k: Kernel, step: Step, u: Kernel, v: Kernel, a: Out, b: Out)
    requires Enabled(k, step) && CallsMutex(step) && MutexContract(k, step, u, a) && MutexContract(k, step, v, b)
    ensures a == b && SameKernel(u, v)
  {
    NothingDiffers(u);
    hide SameKernel, Sleeps, CallOver, HeadWakes, SameSched, T, R, W;
    match step
    case Lock(m, timeout) =>
      if a == Waits { SleepsOneWay(k.s, u.s, v.s, Self(k), step, k.mutexes[m].owner); SameScheduler(k, u, v); }
    case LockReturn(m) => OverOneWay(k.s, u.s, v.s, Self(k)); SameScheduler(k, u, v);
    case Unlock(m) =>
      if Releases(k, m) {
        WakesOneWay(k.s, u.s, v.s, MutexWaiters(m), Some(Self(k)));
        SameScheduler(u, u, v);
      }
    case _ =>
  }

  lemma SemaphoreOneWay(k: Kernel, step: Step, u: Kernel, v: Kernel, a: Out, b: Out)
    requires Enabled(k, step) && CallsSemaphore(step)
    requires SemaphoreContract(k, step, u, a) && SemaphoreContract(k, step, v, b)
    ensures a == b && SameKernel(u, v)
  {
    NothingDiffers(u);
    hide SameKernel, Sleeps, CallOver, HeadWakes, SameSched, T, R, W;
    match step
    case Take(_, _) => if a == Waits { SleepsOneWay(k.s, u.s, v.s, Self(k), step, None); SameScheduler(k, u, v); }
    case TakeReturn(_) => OverOneWay(k.s, u.s, v.s, Self(k)); SameScheduler(k, u, v);
    case Give(id) => GiveOneWay(k, id, u, v, a, b);
    case GiveFromIsr(id) => GiveOneWay(k, id, u, v, a, b);
    case _ =>
  }

  lemma GiveOneWay(k: Kernel, id: nat, u: Kernel, v: Kernel, a: Out, b: Out)
    requires id in k.sems && GiveContract(k, id, u, a) && GiveContract(k, id, v, b)
    ensures a == b && SameKernel(u, v)
  {
    NothingDiffers(u);
    hide SameKernel, HeadWakes, SameSched, W;
    if W(k.s, SemWaiters(id)) != [] {
      WakesOneWay(k.s, u.s, v.s, SemWaiters(id), None);
      SameScheduler(k, u, v);
    }
  }

  lemma QueueOneWay(k: Kernel, step: Step, u: Kernel, v: Kernel, a: Out, b: Out)
    requires QueuesOk(k) && Enabled(k, step) && CallsQueue(step)
    requires QueueContract(k, step, u, a) && QueueContract(k, step, v, b)
    ensures a == b && SameKernel(u, v)
  {
    NothingDiffers(u);
    hide QueuesOk, SameKernel, Sleeps, CallOver, HeadWakes, Holds, SameSched, T, R, W;
    if a == Waits { SleepsOneWay(k.s, u.s, v.s, Self(k), step, None); SameScheduler(k, u, v); }
    else {
      if step.SendReturn? || step.ReceiveReturn? { OverOneWay(k.s, u.s, v.s, Self(k)); }
      else if a == Returns(OK) { WakesOneWay(k.s, u.s, v.s, Receivers(step.q), None); }
      else if a.Got? { WakesOneWay(k.s, u.s, v.s, Senders(step.q), None); }
      if a == Returns(OK) {
        HoldsOneWay(k, u, v, step.q,
                    Items(k, step.q) + [if step.SendReturn? then T(k.s, Self(k)).call.item else step.item]);
      } else if a.Got? { HoldsOneWay(k, u, v, step.q, Items(k, step.q)[1..]); }
      else if step.SendReturn? || step.ReceiveReturn? { SameScheduler(k, u, v); }
    }
  }

  /** Any two outcomes that keep the contract of a step are the same outcome. */
  lemma NothingIsOpen(k: Kernel, step: Step, u: Kernel, v: Kernel, a: Out, b: Out)
    requires QueuesOk(k) && Enabled(k, step) && Contract(k, step, u, a) && Contract(k, step, v, b)
    ensures a == b && SameKernel(u, v)
  {
    hide QueuesOk, Enabled, SameKernel, TaskContract, MutexContract, SemaphoreContract, QueueContract;
    if CallsMutex(step) { MutexOneWay(k, step, u, v, a, b); }
    else if CallsSemaphore(step) { SemaphoreOneWay(k, step, u, v, a, b); }
    else if CallsQueue(step) { QueueOneWay(k, step, u, v, a, b); }
    else { TaskOneWay(k, step, u, v, a, b); }
  }

  // ---- a whole call, from its block half to its return -----------------------------------

  /** The resume half of a call. */
  function ReturnOf(step: Step): Step {
    match step
    case Lock(m, _) => LockReturn(m)
    case Take(id, _) => TakeReturn(id)
    case Send(q, _, _) => SendReturn(q)
    case Receive(q, _) => ReceiveReturn(q)
    case _ => DelayReturn
  }

  /** What a call that waited returns in state `v`, told from the call and from who ended its wait. */
  ghost predicate ReturnsAsAsked(v: Kernel, step: Step, byTick: bool, u: Kernel, out: Out)
    requires QueuesOk(v) && (step.Send? || step.Receive? ==> step.q in v.queues)
  {
    match step
    case Send(q, item, _) =>
      if byTick then out == Returns(Timeout) && u.queues == v.queues
      else if HasRoom(v, q) then SendContract(v, q, item, u, out)
      else out == Returns(Full) && u.queues == v.queues
    case Receive(q, _) =>
      if byTick then out == Returns(Timeout) && u.queues == v.queues
      else if HasItem(v, q) then ReceiveContract(v, q, u, out)
      else out == Returns(Empty) && u.queues == v.queues
    case Delay(_) => byTick && out == Nothing
    case _ => out == Returns(if byTick then Timeout else OK)
  }

  /**
   * Over any run from the block half of a call to its return: exactly one step ends the wait, and what the call then
   * returns, and the item it stores, are told from its own arguments and from whether that step is a tick.
   */
  lemma CallEnds(k: Kernel, step: Step, steps: seq<Step>, last: Step)
    requires Inv(k) && Enabled(k, step) && Next(k, step).1 == Waits
    requires var u := Next(k, step).0; Legal(u, steps) && StaysInCall(u, steps, Self(k))
    requires var v := Run(Next(k, step).0, steps); Enabled(v, last) && Finishes(v, last, Self(k))
    ensures var u := Next(k, step).0;
      var v, ends := Run(u, steps), Wakeups(u, steps, Self(k));
      && last == ReturnOf(step) && |ends| == 1
      && QueuesOk(v) && (step.Send? || step.Receive? ==> step.q in v.queues)
      && ReturnsAsAsked(v, step, ends[0] == SysTick, Next(v, last).0, Next(v, last).1)
  {
    var u, t := Next(k, step).0, Self(k);
    var v := Run(u, steps);
    hide Inv, Enabled, Next, Legal, StaysInCall, Run, Finishes, Wakeups, ReturnsAsAsked, QueuesOk, T;
    BlockSetsDeadline(k, step);
    Reachable(u, steps);
    ExactlyOneAnswer(u, steps, t);
    WaitsExactly(k, step);
    ResumesInCall(v, step, last, t);
    var ends := Wakeups(u, steps, t);
    EndsAsAsked(v, step, last, t, ends[0]);
  }

  lemma ResumesInCall(v: Kernel, step: Step, last: Step, t: Tid)
    requires Inv(v) && Enabled(v, last) && Finishes(v, last, t) && CallOf(step) != NoCall
    requires T(v.s, t).call == CallOf(step)
    ensures last == ReturnOf(step) && T(v.s, t).state == Running && Self(v) == t && QueuesOk(v)
    ensures step.Send? || step.Receive? ==> step.q in v.queues
  {
    SelfFacts(v);
  }

  lemma EndsAsAsked(v: Kernel, step: Step, last: Step, t: Tid, end: Step)
    requires Inv(v) && QueuesOk(v) && Enabled(v, last) && Self(v) == t && last == ReturnOf(step)
    requires step.Send? || step.Receive? ==> step.q in v.queues
    requires T(v.s, t).call == CallOf(step) != NoCall && T(v.s, t).result == Answer(end)
    requires Finishes(v, last, t)
    ensures ReturnsAsAsked(v, step, end == SysTick, Next(v, last).0, Next(v, last).1)
  {
    DelaysTimeOut(v, t);
    hide Inv, QueuesOk, Enabled, Next, Finishes, SendContract, ReceiveContract, CallOver, T;
    EveryStepMeets(v, last);
    ResumeFindsOneAnswer(v, last, t);
    OnlyTicksTimeOut(end);
    assert QueueContract(v, last, Next(v, last).0, Next(v, last).1);
  }

  lemma OnlyTicksTimeOut(end: Step)
    ensures Answer(end) == if end == SysTick then Timeout else OK
  {}

  lemma DelaysTimeOut(v: Kernel, t: Tid)
    requires Inv(v)
    ensures t in v.s.tasks && T(v.s, t).state != Blocked && T(v.s, t).call.Delaying? ==> T(v.s, t).result == Timeout
  {
    if t in v.s.tasks { assert Placed(v.s, t); }
  }
}

/** What holds in every reachable state of the kernel, whatever its tasks do. */
module Invariants {
  import opened Base
  import opened Sequences
  import opened Scheduler
  import opened Membership
  import opened Ticking
  import opened Evolution
  import opened Kernel

  predicate Owns(k: Kernel, t: Tid, m: nat) { m in k.mutexes && k.mutexes[m].owner == Some(t) }

  /** A mutex with waiters is owned, not by a waiter; a lock call that was answered got the mutex exactly if told OK. */
  ghost predicate MutexesOk(k: Kernel) {
    && (forall m :: W(k.s, MutexWaiters(m)) != [] ==> m in k.mutexes && k.mutexes[m].owner.Some?)
    && (forall m, t :: Owns(k, t, m) ==> t in k.s.tasks && t != IDLE)
    && (forall m, t ::
          Owns(k, t, m) && T(k.s, t).state == Blocked && T(k.s, t).call.Locking? ==> T(k.s, t).call.id != m)
    && (forall t :: t in k.s.tasks && T(k.s, t).state != Blocked && T(k.s, t).call.Locking? ==>
          (Owns(k, t, T(k.s, t).call.id) <==> T(k.s, t).result == OK))
  }

  /** Nobody waits while units are left: a unit handed over cannot be taken by a third task. */
  ghost predicate SemsOk(k: Kernel) {
    forall id :: id in k.sems && k.sems[id].count > 0 ==> W(k.s, SemWaiters(id)) == []
  }

  predicate QueueOk(q: Queue) {
    var n := |q.buffer|;
    && q.count <= n
    && (if n == 0 then q.head == q.tail == 0 else q.head < n && q.tail == (q.head + q.count) % n)
  }

  ghost predicate QueuesOk(k: Kernel) {
    forall id :: id in k.queues ==> QueueOk(k.queues[id])
  }

  /** The idle task exists, stays at the lowest priority and makes no kernel call. */
  predicate IdleOk(s: Sched) {
    && IDLE in s.tasks && T(s, IDLE).prio == T(s, IDLE).base == 0 && T(s, IDLE).call == NoCall
    && (s.cur == None ==> forall t | t in s.tasks :: T(s, t).state == Ready)
  }

  ghost predicate Inv(k: Kernel) {
    Linked(k.s) && AllPlaced(k.s) && MutexesOk(k) && SemsOk(k) && QueuesOk(k) && IdleOk(k.s)
  }

  // ---- what one scheduler operation can do to waiters ------------------------------------

  /** From `s` to `u` no task joins a wait list other than `w`. */
  ghost predicate Shrinks(s: Sched, u: Sched, w: Option<WaitList>) {
    forall v, t {:trigger t in W(u, v)} :: Some(v) != w && t in W(u, v) ==> t in W(s, v)
  }

  /** No task starts to wait for a mutex or gets one; the waiting ones can only time out. */
  ghost predicate Quiet(s: Sched, u: Sched) {
    && s.tasks.Keys <= u.tasks.Keys
    && (forall t :: t in u.tasks && T(u, t).call.Locking? ==>
        && t in s.tasks && T(s, t).call == T(u, t).call
        && (T(u, t).state == Blocked ==> T(s, t).state == Blocked)
        && (T(u, t).state != Blocked ==>
            T(u, t).result == if T(s, t).state == Blocked then Timeout else T(s, t).result))
  }

  ghost predicate IdleKept(s: Sched, u: Sched) { IdleOk(s) ==> IdleOk(u) }

  lemma QuietKeepsMutexes(k: Kernel, u: Kernel)
    requires MutexesOk(k) && Quiet(k.s, u.s) && u.mutexes == k.mutexes
    requires forall m, t {:trigger t in W(u.s, MutexWaiters(m))} ::
      t in W(u.s, MutexWaiters(m)) ==> t in W(k.s, MutexWaiters(m))
    ensures MutexesOk(u)
  {
    hide T, W;
    forall m | W(u.s, MutexWaiters(m)) != [] ensures m in u.mutexes && u.mutexes[m].owner.Some? {
      var _ := First(W(u.s, MutexWaiters(m)));
    }
    assert forall m, t :: Owns(u, t, m) <==> Owns(k, t, m);
  }

  lemma ShrinkKeepsSems(k: Kernel, u: Kernel, w: Option<WaitList>)
    requires SemsOk(k) && Shrinks(k.s, u.s, w) && u.sems == k.sems
    requires w.Some? && w.value.SemWaiters? && w.value.id in k.sems ==> k.sems[w.value.id].count == 0
    ensures SemsOk(u)
  {
    hide T, W;
    forall id | id in u.sems && u.sems[id].count > 0 ensures W(u.s, SemWaiters(id)) == [] {
      NothingJoins(W(k.s, SemWaiters(id)), W(u.s, SemWaiters(id)));
    }
  }

  lemma NothingJoins(p: seq<Tid>, q: seq<Tid>)
    requires p == [] && forall t :: t in q ==> t in p
    ensures q == []
  {
    var _ := First(q);
  }

  function First(q: seq<Tid>): (r: Option<Tid>)
    ensures r.Some? ==> r.value in q
    ensures r.None? ==> q == []
  {
    if q == [] then None else Some(q[0])
  }

  lemma SelectNextQuiet(s: Sched)
    requires Linked(s) && AllPlaced(s) && CanDispatch(s)
    ensures var u := SelectNext(s); Quiet(s, u) && Shrinks(s, u, None) && IdleKept(s, u)
  {
    hide Linked, AllPlaced, CanDispatch, SelectNext, Chosen, TopLevel, Requeued, T, R, W;
    CurrentExists(s);
    var v, u := SelectNextFrame(s);
    var _ := RequeuedFrame(s);
  }

  lemma TickQuiet(s: Sched)
    requires Linked(s) && AllPlaced(s)
    ensures var u := Tick(s); Quiet(s, u) && Shrinks(s, u, None) && IdleKept(s, u)
  {
    hide Linked, AllPlaced, Tick, Advanced, Due, DueAt, Remaining, T, R, W;
    var u, due := TickFrame(s);
    DelayedIsBlocked(s);
  }

  lemma WakeQuiet(s: Sched, w: WaitList)
    requires Linked(s) && AllPlaced(s) && !w.MutexWaiters?
    ensures var u := WakeWaiter(s, w).0; Quiet(s, u) && Shrinks(s, u, None) && IdleKept(s, u)
  {
    hide Linked, AllPlaced, MakeReady, T, R, W, Without;
    if W(s, w) != [] {
      WaiterIsBlocked(s, w);
      var t := W(s, w)[0];
      var u := MakeReadyFrame(s, t, OK);
    }
  }

  lemma BlockQuiet(s: Sched, t: Tid, call: Call)
    requires Linked(s) && t in s.tasks && T(s, t).state == Running && Placed(s, t) && t != IDLE && s.cur == Some(t)
    requires InKernel(call) && !call.Locking?
    ensures var u := BlockOn(s, t, call); Quiet(s, u) && Shrinks(s, u, WaitsOn(call)) && IdleKept(s, u)
  {
    hide Linked, BlockOn, T, R, W, InsertWaiter;
    BlockMembers(s, t, call);
    var u := BlockOnFrame(s, t, call);
  }

  /** Only the caller joins, and only the list of its call. */
  lemma BlockMembers(s: Sched, t: Tid, call: Call)
    requires Linked(s) && t in s.tasks && T(s, t).link == Off && T(s, t).event == None && InKernel(call)
    ensures Shrinks(s, BlockOn(s, t, call), WaitsOn(call))
  {
    hide Linked, BlockOn, T, R, W, InsertWaiter;
    var u := BlockOnFrame(s, t, call);
  }

  lemma LeaveQuiet(s: Sched, t: Tid)
    requires t in s.tasks && Placed(s, t) && T(s, t).state == Running && t != IDLE
    ensures var u := Leave(s, t); Quiet(s, u) && Shrinks(s, u, None) && IdleKept(s, u)
    ensures Leave(s, t) == SetT(s, t, T(s, t).(call := NoCall, answers := 0)) == Enter(s, t, NoCall)
  {
    var u := LeaveFrame(s, t);
    assert u == SetT(s, t, T(s, t).(call := NoCall, answers := 0));
    hide Leave, T, R, W;
  }

  lemma CreateQuiet(s: Sched, t: Tid, prio: nat)
    requires t !in s.tasks
    ensures var u := CreateTask(s, t, prio); Quiet(s, u) && Shrinks(s, u, None) && IdleKept(s, u)
  {
    var v := SetTFrame(s, t, Tcb(prio, prio, Ready, Off, None, 0, OK, NoCall, 0, 0));
    var u := AddReadyFrame(v, t);
    hide AddReady, T, R, W;
  }

  lemma SuspendQuiet(s: Sched, t: Tid)
    requires t in s.tasks && s.cur.Some?
    ensures var u := SuspendTask(s, t); Quiet(s, u) && Shrinks(s, u, None) && IdleKept(s, u)
  {
    var v := s;
    if T(s, t).state == Ready { v := RemoveFrame(s, t); }
    if T(s, t).state == Ready || T(s, t).state == Running {
      var u := SetTFrame(v, t, T(v, t).(state := Suspended));
      hide Remove, T, R, W;
    }
  }

  lemma ResumeQuiet(s: Sched, t: Tid)
    requires t in s.tasks && s.cur.Some?
    ensures var u := ResumeTask(s, t); Quiet(s, u) && Shrinks(s, u, None) && IdleKept(s, u)
  {
    if T(s, t).state == Suspended {
      var u := AddReadyFrame(s, t);
      hide AddReady, T, R, W;
    }
  }

  lemma CurrentExists(s: Sched)
    requires Linked(s)
    ensures s.cur.Some? ==> s.cur.value in s.tasks
  {}

  // ---- every step keeps the invariant ----------------------------------------------------

  lemma WakeKeeps(s: Sched, w: WaitList)
    requires Linked(s) && AllPlaced(s)
    ensures Linked(WakeWaiter(s, w).0) && AllPlaced(WakeWaiter(s, w).0)
  {
    hide Linked, AllPlaced, MakeReady, T, W;
    if W(s, w) != [] {
      WaiterIsBlocked(s, w);
      MakeReadyLinked(s, W(s, w)[0], OK);
      MakeReadyPlaced(s, W(s, w)[0], OK);
    }
  }

  lemma BlockKeeps(s: Sched, t: Tid, call: Call)
    requires Linked(s) && AllPlaced(s) && t in s.tasks && T(s, t).state == Running && InKernel(call)
    ensures Linked(BlockOn(s, t, call)) && AllPlaced(BlockOn(s, t, call))
  {
    assert Placed(s, t);
    hide Linked, AllPlaced, BlockOn, T;
    BlockOnLinked(s, t, call);
    BlockOnPlaced(s, t, call);
  }

  /** The current task, seen from task code or from a resume half. */
  lemma SelfFacts(k: Kernel)
    requires Inv(k) && (TaskCode(k) || Resumed(k))
    ensures var t := Self(k);
      && t in k.s.tasks && Placed(k.s, t) && T(k.s, t).state == Running && k.s.cur == Some(t)
      && T(k.s, t).link == Off && T(k.s, t).event == None && (InKernel(T(k.s, t).call) ==> t != IDLE)
      && T(k.s, t).prio < MAX_PRIORITIES && T(k.s, t).base < MAX_PRIORITIES
      && (TaskCode(k) ==> t != IDLE && T(k.s, t).call == NoCall)
  {
    PrioInRange(k.s, Self(k));
  }

  lemma LeaveKeeps(s: Sched, t: Tid)
    requires Linked(s) && AllPlaced(s) && t in s.tasks && T(s, t).state == Running && t != IDLE
    ensures Linked(Leave(s, t)) && AllPlaced(Leave(s, t))
  {
    assert Placed(s, t);
    hide Linked, AllPlaced, Leave, T;
    LeaveQuiet(s, t);
    PrioInRange(s, t);
    FieldsKeep(s, t, T(s, t).(call := NoCall, answers := 0));
  }

  /** Boosting or restoring changes a priority and nothing else. */
  lemma PrioKeeps(s: Sched, t: Tid, p: nat)
    requires Linked(s) && AllPlaced(s) && t in s.tasks && p < MAX_PRIORITIES
    ensures var u := SetT(s, t, T(s, t).(prio := p)); Linked(u) && AllPlaced(u)
  {
    hide Linked, AllPlaced, T;
    PrioInRange(s, t);
    FieldsKeep(s, t, T(s, t).(prio := p));
  }

  /** An operation that keeps the lists and touches no mutex; only a task that joins `w` starts to wait. */
  ghost predicate Plain(s: Sched, u: Sched, w: Option<WaitList>) {
    Linked(u) && AllPlaced(u) && Quiet(s, u) && Shrinks(s, u, w) && IdleKept(s, u)
  }

  lemma PlainNothing(s: Sched, w: Option<WaitList>)
    requires Linked(s) && AllPlaced(s)
    ensures Plain(s, s, w)
  {}

  /** An ordinary step: plain, and the tasks and lists evolve as Evolution says. */
  ghost predicate Ordinary(s: Sched, u: Sched, w: Option<WaitList>, actor: Option<Tid>, r: Status, waits: bool) {
    Plain(s, u, w) && Evolves(s, u, actor, r, waits)
  }

  /** The actor of a step, if any, is a task that runs. */
  predicate ActorRuns(s: Sched, actor: Option<Tid>) {
    actor.Some? ==> actor.value in s.tasks && T(s, actor.value).state == Running
  }

  lemma OrdinaryNothing(s: Sched, w: Option<WaitList>, actor: Option<Tid>, r: Status, waits: bool)
    requires Linked(s) && AllPlaced(s) && ActorRuns(s, actor)
    ensures Ordinary(s, s, w, actor, r, waits)
  {
    hide Linked, AllPlaced, Plain, Evolves;
    PlainNothing(s, w);
    NothingEvolves(s, actor, r, waits);
  }

  lemma OrdinaryWake(s: Sched, from: WaitList, w: Option<WaitList>, actor: Option<Tid>)
    requires Linked(s) && AllPlaced(s) && ActorRuns(s, actor) && !from.MutexWaiters?
    ensures Ordinary(s, WakeWaiter(s, from).0, w, actor, OK, false)
  {
    hide Linked, AllPlaced, Quiet, IdleKept, Evolves, WakeWaiter, W;
    WakeKeeps(s, from);
    WakeQuiet(s, from);
    WakeEvolves(s, from, actor);
  }

  lemma OrdinaryBlock(k: Kernel, call: Call)
    requires Inv(k) && TaskCode(k) && InKernel(call) && !call.Locking?
    ensures Ordinary(k.s, BlockOn(k.s, Self(k), call), WaitsOn(call), Some(Self(k)), OK, true)
  {
    hide Inv, Linked, AllPlaced, Placed, Quiet, Shrinks, IdleKept, Evolves, BlockOn, T;
    SelfFacts(k);
    MutexesOfInv(k);
    BlockKeeps(k.s, Self(k), call);
    BlockQuiet(k.s, Self(k), call);
    BlockEvolves(k.s, Self(k), call, OK);
  }

  lemma OrdinaryLeave(k: Kernel)
    requires Inv(k) && Resumed(k) && InKernel(T(k.s, Self(k)).call)
    ensures Ordinary(k.s, Leave(k.s, Self(k)), None, Some(Self(k)), OK, false)
  {
    hide Inv, Linked, AllPlaced, Placed, Quiet, Shrinks, IdleKept, Evolves, Leave, T;
    SelfFacts(k);
    MutexesOfInv(k);
    LeaveKeeps(k.s, Self(k));
    LeaveQuiet(k.s, Self(k));
    LeaveEvolves(k.s, Self(k), OK);
  }

  /** The steps that are neither ordinary nor mutex steps. */
  predicate Rearranges(step: Step) { step.Switch? || step.Suspend? || step.Resume? }

  predicate NoMutex(step: Step) { !step.Lock? && !step.LockReturn? && !step.Unlock? }

  lemma PlainRearranges(k: Kernel, step: Step)
    requires Inv(k) && Enabled(k, step) && Rearranges(step)
    ensures Plain(k.s, Next(k, step).0.s, None)
  {
    var s := k.s;
    hide Inv, Linked, AllPlaced, CanDispatch, Quiet, Shrinks, IdleKept, SelectNext, Tick, CreateTask, SuspendTask,
         ResumeTask;
    MutexesOfInv(k);
    match step
    case Switch => SelectNextLinked(s); SelectNextPlaced(s); SelectNextQuiet(s);
    case Suspend(t) => SuspendTaskKeeps(s, t); SuspendQuiet(s, t);
    case Resume(t) => ResumeTaskKeeps(s, t); ResumeQuiet(s, t);
  }

  function Joins(step: Step): Option<WaitList> {
    match step
    case Take(id, _) => Some(SemWaiters(id))
    case Send(q, _, _) => Some(Senders(q))
    case Receive(q, _) => Some(Receivers(q))
    case _ => None
  }

  /** The task whose code a step is, if it is task code. */
  function Actor(k: Kernel, step: Step): Option<Tid> {
    if step.Switch? || step.SysTick? || step.GiveFromIsr? || step.SendFromIsr? then None
    else k.s.cur
  }

  /** What a task woken by the step is told. */
  function Answer(step: Step): Status { if step.SysTick? then Timeout else OK }

  lemma OrdinaryTick(s: Sched)
    requires Linked(s) && AllPlaced(s)
    ensures Ordinary(s, Tick(s), None, None, Timeout, false)
  {
    hide Linked, AllPlaced, Quiet, Shrinks, IdleKept, Evolves, Tick;
    TickKeeps(s);
    TickQuiet(s);
    TickEvolves(s);
  }

  lemma OrdinaryCreate(s: Sched, t: Tid, prio: nat, actor: Option<Tid>)
    requires Linked(s) && AllPlaced(s) && ActorRuns(s, actor) && t !in s.tasks
    ensures Ordinary(s, if prio >= MAX_PRIORITIES then s else CreateTask(s, t, prio), None, actor, OK, false)
  {
    hide Linked, AllPlaced, Quiet, Shrinks, IdleKept, Evolves, CreateTask;
    if prio < MAX_PRIORITIES {
      CreateTaskKeeps(s, t, prio);
      CreateQuiet(s, t, prio);
      CreateEvolves(s, t, prio, actor, OK);
    } else {
      hide Ordinary;
      OrdinaryNothing(s, None, actor, OK, false);
    }
  }

  lemma OrdinaryTake(k: Kernel, id: nat, timeout: nat)
    requires Inv(k) && TaskCode(k) && id in k.sems
    ensures Ordinary(k.s, SemTake(k, id, timeout).0.s, Some(SemWaiters(id)), Some(Self(k)), OK,
        SemTake(k, id, timeout).1 == Waits)
  {
    hide Inv, Ordinary, Linked, AllPlaced, BlockOn, TaskCode, T;
    SelfFacts(k);
    MutexesOfInv(k);
    OrdinaryNothing(k.s, Some(SemWaiters(id)), Some(Self(k)), OK, false);
    OrdinaryBlock(k, Taking(id, timeout));
  }

  lemma OrdinaryGive(k: Kernel, id: nat, actor: Option<Tid>)
    requires Inv(k) && id in k.sems && ActorRuns(k.s, actor)
    ensures Ordinary(k.s, SemGive(k, id).0.s, None, actor, OK, false) && SemGive(k, id).1 != Waits
  {
    hide Inv, Ordinary, Linked, AllPlaced, MakeReady;
    MutexesOfInv(k);
    OrdinaryWake(k.s, SemWaiters(id), None, actor);
  }

  lemma OrdinarySend(k: Kernel, q: nat, item: Item, timeout: nat)
    requires Inv(k) && TaskCode(k) && q in k.queues
    ensures Ordinary(k.s, QueueSend(k, q, item, timeout).0.s, Some(Senders(q)), Some(Self(k)), OK,
                     QueueSend(k, q, item, timeout).1 == Waits)
  {
    hide Inv, Ordinary, Linked, AllPlaced, BlockOn, WakeWaiter, TaskCode, T, W, CopyIn;
    SelfFacts(k);
    MutexesOfInv(k);
    OrdinaryNothing(k.s, Some(Senders(q)), Some(Self(k)), OK, false);
    OrdinaryWake(k.s, Receivers(q), Some(Senders(q)), Some(Self(k)));
    OrdinaryBlock(k, Sending(q, item, timeout));
  }

  lemma OrdinaryReceive(k: Kernel, q: nat, timeout: nat)
    requires Inv(k) && TaskCode(k) && q in k.queues
    ensures Ordinary(k.s, QueueReceive(k, q, timeout).0.s, Some(Receivers(q)), Some(Self(k)), OK,
                     QueueReceive(k, q, timeout).1 == Waits)
  {
    hide Inv, Ordinary, Linked, AllPlaced, BlockOn, WakeWaiter, TaskCode, T, W, CopyOut;
    SelfFacts(k);
    MutexesOfInv(k);
    OrdinaryNothing(k.s, Some(Receivers(q)), Some(Self(k)), OK, false);
    OrdinaryWake(k.s, Senders(q), Some(Receivers(q)), Some(Self(k)));
    OrdinaryBlock(k, Receiving(q, timeout));
  }

  lemma OrdinaryQueueReturn(k: Kernel, q: nat, item: Item)
    requires Inv(k) && Resumed(k) && q in k.queues && InKernel(T(k.s, Self(k)).call)
    ensures Ordinary(k.s, QueueSendReturn(k, q, item).0.s, None, Some(Self(k)), OK, false)
    ensures Ordinary(k.s, QueueReceiveReturn(k, q).0.s, None, Some(Self(k)), OK, false)
    ensures QueueSendReturn(k, q, item).1 != Waits && QueueReceiveReturn(k, q).1 != Waits
  {
    hide Inv, Ordinary, Leave, Resumed, T, CopyIn, CopyOut;
    OrdinaryLeave(k);
  }

  lemma OrdinarySendFromIsr(k: Kernel, q: nat, item: Item)
    requires Inv(k) && q in k.queues
    ensures Ordinary(k.s, QueueSendFromIsr(k, q, item).0.s, None, None, OK, false)
    ensures QueueSendFromIsr(k, q, item).1 != Waits
  {
    hide Inv, Ordinary, Linked, AllPlaced, WakeWaiter, CopyIn;
    MutexesOfInv(k);
    OrdinaryNothing(k.s, None, None, OK, false);
    OrdinaryWake(k.s, Receivers(q), None, None);
  }

  lemma OrdinaryTask(k: Kernel, step: Step)
    requires Inv(k) && Enabled(k, step)
    requires step.Create? || step.SysTick? || step.Delay? || step.DelayReturn?
    ensures Ordinary(k.s, Next(k, step).0.s, Joins(step), Actor(k, step), Answer(step), Next(k, step).1 == Waits)
  {
    hide Inv, Ordinary, Linked, AllPlaced, Tick, CreateTask, BlockOn, Leave, T;
    MutexesOfInv(k);
    if TaskCode(k) || Resumed(k) { SelfFacts(k); }
    match step
    case Create(t, prio) => OrdinaryCreate(k.s, t, prio, k.s.cur);
    case SysTick => OrdinaryTick(k.s);
    case Delay(ticks) => OrdinaryNothing(k.s, None, Some(Self(k)), OK, false); OrdinaryBlock(k, Delaying(ticks));
    case DelayReturn => OrdinaryLeave(k);
  }

  lemma OrdinarySem(k: Kernel, step: Step)
    requires Inv(k) && Enabled(k, step)
    requires step.Take? || step.TakeReturn? || step.Give? || step.GiveFromIsr?
    ensures Ordinary(k.s, Next(k, step).0.s, Joins(step), Actor(k, step), Answer(step), Next(k, step).1 == Waits)
  {
    hide Inv, Ordinary, SemTake, SemGive, Leave, T;
    if TaskCode(k) || Resumed(k) { SelfFacts(k); }
    match step
    case Take(id, timeout) => OrdinaryTake(k, id, timeout);
    case TakeReturn(id) => OrdinaryLeave(k);
    case Give(id) => OrdinaryGive(k, id, k.s.cur);
    case GiveFromIsr(id) => OrdinaryGive(k, id, None);
  }

  lemma OrdinaryQueue(k: Kernel, step: Step)
    requires Inv(k) && Enabled(k, step)
    requires step.Send? || step.SendReturn? || step.SendFromIsr? || step.Receive? || step.ReceiveReturn?
    ensures Ordinary(k.s, Next(k, step).0.s, Joins(step), Actor(k, step), Answer(step), Next(k, step).1 == Waits)
  {
    hide Inv, Ordinary, QueueSend, QueueSendReturn, QueueSendFromIsr, QueueReceive, QueueReceiveReturn, T;
    match step
    case Send(q, item, timeout) => OrdinarySend(k, q, item, timeout);
    case SendReturn(q) => OrdinaryQueueReturn(k, q, T(k.s, Self(k)).call.item);
    case SendFromIsr(q, item) => OrdinarySendFromIsr(k, q, item);
    case Receive(q, timeout) => OrdinaryReceive(k, q, timeout);
    case ReceiveReturn(q) => OrdinaryQueueReturn(k, q, 0);
  }

  /** What an ordinary step does to the scheduler. */
  lemma OrdinaryStep(k: Kernel, step: Step)
    requires Inv(k) && Enabled(k, step) && NoMutex(step) && !Rearranges(step)
    ensures Ordinary(k.s, Next(k, step).0.s, Joins(step), Actor(k, step), Answer(step), Next(k, step).1 == Waits)
  {
    hide Inv, Ordinary, Enabled, Next;
    if step.Take? || step.TakeReturn? || step.Give? || step.GiveFromIsr? { OrdinarySem(k, step); }
    else if step.Create? || step.SysTick? || step.Delay? || step.DelayReturn? { OrdinaryTask(k, step); }
    else { OrdinaryQueue(k, step); }
  }

  lemma MutexesUntouched(k: Kernel, step: Step)
    requires Enabled(k, step) && NoMutex(step)
    ensures Next(k, step).0.mutexes == k.mutexes
  {
    hide CanDispatch, TaskCode, Resumed, SelectNext, Tick, BlockOn, Leave, WakeWaiter, CreateTask, SuspendTask,
         ResumeTask, T, CopyIn, CopyOut;
  }

  lemma PlainStep(k: Kernel, step: Step)
    requires Inv(k) && Enabled(k, step) && NoMutex(step)
    ensures Plain(k.s, Next(k, step).0.s, Joins(step)) && Next(k, step).0.mutexes == k.mutexes
  {
    hide Inv, Plain, Evolves, Enabled, Next;
    MutexesUntouched(k, step);
    if Rearranges(step) { PlainRearranges(k, step); } else { OrdinaryStep(k, step); }
  }

  // ---- the mutex steps -------------------------------------------------------------------

  function Max(a: nat, b: nat): nat { if a >= b then a else b }

  lemma BoostFrame(s: Sched, owner: Tid, p: nat) returns (u: Sched)
    requires owner in s.tasks
    ensures u == Boost(s, owner, p) == s.(tasks := u.tasks) && u.tasks.Keys == s.tasks.Keys
    ensures T(u, owner) == T(s, owner).(prio := Max(p, T(s, owner).prio))
    ensures forall x :: x != owner ==> T(u, x) == T(s, x)
    ensures forall n :: R(u, n) == R(s, n)
    ensures forall w :: W(u, w) == W(s, w)
  {
    u := s;
    if p > T(s, owner).prio { u := SetTFrame(s, owner, T(s, owner).(prio := p)); }
    assert T(s, owner) == T(s, owner).(prio := T(s, owner).prio);
  }

  /** The block half of a lock: the current task waits for `m`, its owner has at least its priority. */
  lemma LockWaits(k: Kernel, m: nat, timeout: nat) returns (o: Tid, b: Sched, u: Sched)
    requires Inv(k) && TaskCode(k) && m in k.mutexes && MutexLock(k, m, timeout).1 == Waits
    ensures k.mutexes[m].owner == Some(o) && o != Self(k) && o in k.s.tasks && o != IDLE
    ensures b == Boost(k.s, o, T(k.s, Self(k)).prio) && u == BlockOn(b, Self(k), Locking(m, timeout))
    ensures MutexLock(k, m, timeout).0 == k.(s := u)
    ensures Linked(b) && AllPlaced(b) && Linked(u) && AllPlaced(u)
    ensures T(b, o) == T(k.s, o).(prio := Max(T(k.s, Self(k)).prio, T(k.s, o).prio))
    ensures forall x :: x != o ==> T(b, x) == T(k.s, x)
    ensures (forall n :: R(b, n) == R(k.s, n)) && (forall w :: W(b, w) == W(k.s, w))
    ensures b == k.s.(tasks := b.tasks) && b.tasks.Keys == k.s.tasks.Keys
  {
    SelfFacts(k);
    var s, self := k.s, Self(k);
    o := k.mutexes[m].owner.value;
    assert Owns(k, o, m);
    var p := T(s, self).prio;
    assert Linked(s) && AllPlaced(s) && o in s.tasks && o != IDLE;
    hide Linked, AllPlaced, MutexesOk, Inv, BlockOn, Boost, SetT, T, R, W;
    b := BoostFrame(s, o, p);
    BoostKeeps(s, o, p);
    u := BlockOn(b, self, Locking(m, timeout));
    BlockKeeps(b, self, Locking(m, timeout));
  }

  lemma BoostKeeps(s: Sched, o: Tid, p: nat)
    requires Linked(s) && AllPlaced(s) && o in s.tasks && p < MAX_PRIORITIES
    ensures Linked(Boost(s, o, p)) && AllPlaced(Boost(s, o, p))
  {
    hide Linked, AllPlaced, SetT, T;
    if p > T(s, o).prio { PrioKeeps(s, o, p); }
  }

  /** The last unlock: the owner is back at its base priority and the head waiter, if any, owns the mutex. */
  lemma UnlockHandsOver(k: Kernel, m: nat) returns (r: Sched, w: Option<Tid>, u: Sched)
    requires Inv(k) && TaskCode(k) && m in k.mutexes && k.mutexes[m].owner == Some(Self(k))
    requires (k.mutexes[m].depth + U32 - 1) % U32 == 0
    ensures r == Restore(k.s, Self(k)) && (u, w) == WakeWaiter(r, MutexWaiters(m))
    ensures MutexUnlock(k, m).0 == k.(s := u, mutexes := k.mutexes[m := Mutex(w, if w.Some? then 1 else 0)])
    ensures Linked(r) && AllPlaced(r) && Linked(u) && AllPlaced(u)
    ensures T(r, Self(k)) == T(k.s, Self(k)).(prio := T(k.s, Self(k)).base)
    ensures forall x :: x != Self(k) ==> T(r, x) == T(k.s, x)
    ensures (forall n :: R(r, n) == R(k.s, n)) && (forall x :: W(r, x) == W(k.s, x))
    ensures r == k.s.(tasks := r.tasks) && r.tasks.Keys == k.s.tasks.Keys
    ensures w == if W(k.s, MutexWaiters(m)) == [] then None else Some(W(k.s, MutexWaiters(m))[0])
  {
    SelfFacts(k);
    var s, self := k.s, Self(k);
    hide Linked, AllPlaced, SetT, T, W, MakeReady;
    PrioKeeps(s, self, T(s, self).base);
    r := SetTFrame(s, self, T(s, self).(prio := T(s, self).base));
    u, w := WakeWaiter(r, MutexWaiters(m)).0, WakeWaiter(r, MutexWaiters(m)).1;
    WakeKeeps(r, MutexWaiters(m));
  }

  /** The tasks other than `self` are in the same call, with the same answer. */
  ghost predicate OthersSame(s: Sched, u: Sched, self: Tid) {
    && u.tasks.Keys == s.tasks.Keys && u.cur == s.cur
    && forall x :: x != self ==>
      T(u, x).state == T(s, x).state && T(u, x).call == T(s, x).call && T(u, x).result == T(s, x).result
  }

  lemma JoiningKeepsMutexes(k: Kernel, u: Kernel, self: Tid, m: nat)
    requires MutexesOk(k) && OthersSame(k.s, u.s, self) && u.mutexes == k.mutexes && self in k.s.tasks
    requires m in k.mutexes && k.mutexes[m].owner.Some? && k.mutexes[m].owner != Some(self)
    requires T(u.s, self).state == Blocked && T(u.s, self).call.Locking? && T(u.s, self).call.id == m
    requires Shrinks(k.s, u.s, Some(MutexWaiters(m)))
    ensures MutexesOk(u)
  {
    hide T, W;
    assert forall x, n :: Owns(u, x, n) <==> Owns(k, x, n);
    forall n | W(u.s, MutexWaiters(n)) != [] ensures n in u.mutexes && u.mutexes[n].owner.Some? {
      if n != m { var _ := First(W(u.s, MutexWaiters(n))); }
    }
  }

  lemma LockWaitsKeeps(k: Kernel, m: nat, timeout: nat)
    requires Inv(k) && TaskCode(k) && m in k.mutexes && MutexLock(k, m, timeout).1 == Waits
    ensures var u := MutexLock(k, m, timeout).0;
      Linked(u.s) && AllPlaced(u.s) && MutexesOk(u) && IdleKept(k.s, u.s) && Shrinks(k.s, u.s, Some(MutexWaiters(m)))
  {
    hide Inv, Linked, AllPlaced, Placed, MutexLock, MutexesOk, TaskCode, BlockOn, Boost, T, R, W, InsertWaiter;
    SelfFacts(k);
    MutexesOfInv(k);
    var o, b, s := LockWaits(k, m, timeout);
    s := BlockOnFrame(b, Self(k), Locking(m, timeout));
    JoiningKeepsMutexes(k, k.(s := s), Self(k), m);
  }

  lemma MutexesOfInv(k: Kernel)
    requires Inv(k)
    ensures Linked(k.s) && AllPlaced(k.s) && MutexesOk(k) && SemsOk(k) && QueuesOk(k) && IdleOk(k.s)
    ensures forall m, t :: Owns(k, t, m) ==> t in k.s.tasks && t != IDLE
  {}

  /** Taking a free mutex, or one more level of one's own, or not waiting. */
  lemma LockTakesKeeps(k: Kernel, m: nat, timeout: nat)
    requires Inv(k) && TaskCode(k) && m in k.mutexes && MutexLock(k, m, timeout).1 != Waits
    ensures var u := MutexLock(k, m, timeout).0; u.s == k.s && MutexesOk(u)
  {
    var self, u := Self(k), MutexLock(k, m, timeout).0;
    SelfFacts(k);
    MutexesOfInv(k);
    hide Inv, Linked, AllPlaced, Placed, T, W;
    assert forall x, n :: x != self || n != m ==> (Owns(u, x, n) <==> Owns(k, x, n));
  }

  lemma UnlockKeepsMutexes(k: Kernel, m: nat)
    requires Inv(k) && TaskCode(k) && m in k.mutexes
    ensures var u := MutexUnlock(k, m).0;
      Linked(u.s) && AllPlaced(u.s) && MutexesOk(u) && IdleKept(k.s, u.s) && Shrinks(k.s, u.s, None)
  {
    if k.mutexes[m].owner == Some(Self(k)) && (k.mutexes[m].depth + U32 - 1) % U32 == 0 {
      hide Inv, Linked, AllPlaced, MutexUnlock, MutexesOk, TaskCode, IdleKept, Shrinks;
      UnlockLastKeeps(k, m);
    } else {
      UnlockLessKeeps(k, m);
    }
  }

  /** An unlock by another task, or of an inner level. */
  lemma UnlockLessKeeps(k: Kernel, m: nat)
    requires Inv(k) && m in k.mutexes
    requires k.mutexes[m].owner != Some(Self(k)) || (k.mutexes[m].depth + U32 - 1) % U32 != 0
    ensures var u := MutexUnlock(k, m).0; u.s == k.s && MutexesOk(u)
    ensures Linked(k.s) && AllPlaced(k.s)
  {
    hide Inv, Linked, AllPlaced, WakeWaiter, T, W;
    MutexesOfInv(k);
    var u := MutexUnlock(k, m).0;
    assert forall x, n :: Owns(u, x, n) <==> Owns(k, x, n);
  }

  lemma HandOverKeepsMutexes(k: Kernel, u: Kernel, self: Tid, m: nat, w: Option<Tid>)
    requires MutexesOk(k) && Owns(k, self, m) && T(k.s, self).call == NoCall && self in k.s.tasks
    requires forall n ::
      n != m ==> (n in u.mutexes <==> n in k.mutexes) && (n in k.mutexes ==> u.mutexes[n] == k.mutexes[n])
    requires m in u.mutexes && u.mutexes[m].owner == w && T(u.s, self).call == NoCall
    requires Shrinks(k.s, u.s, None) && (w == None ==> W(u.s, MutexWaiters(m)) == [])
    requires w == None ==> OthersSame(k.s, u.s, self)
    requires w.Some? ==> w.value in k.s.tasks && w.value != self && w.value != IDLE && u.s.tasks.Keys == k.s.tasks.Keys
    requires w.Some? ==>
        T(k.s, w.value).state == Blocked && T(k.s, w.value).call.Locking? && T(k.s, w.value).call.id == m
    requires w.Some? ==> T(u.s, w.value) == T(k.s, w.value).(state := Ready, result := OK, link := T(u.s, w.value).link,
               event := None, answers := T(u.s, w.value).answers)
    requires forall x :: x != self && w != Some(x) ==>
      T(u.s, x).state == T(k.s, x).state && T(u.s, x).call == T(k.s, x).call && T(u.s, x).result == T(k.s, x).result
    ensures MutexesOk(u)
  {
    hide T, W;
    assert forall x, n :: n != m ==> (Owns(u, x, n) <==> Owns(k, x, n));
    assert forall x: Tid :: Owns(u, x, m) <==> w == Some(x);
    assert forall x: Tid :: Owns(k, x, m) <==> x == self;
    forall n | W(u.s, MutexWaiters(n)) != [] ensures n in u.mutexes && u.mutexes[n].owner.Some? {
      if n != m { var _ := First(W(u.s, MutexWaiters(n))); }
    }
  }

  lemma UnlockLastKeeps(k: Kernel, m: nat)
    requires Inv(k) && TaskCode(k) && m in k.mutexes && k.mutexes[m].owner == Some(Self(k))
    requires (k.mutexes[m].depth + U32 - 1) % U32 == 0
    ensures var u := MutexUnlock(k, m).0;
      Linked(u.s) && AllPlaced(u.s) && MutexesOk(u) && IdleKept(k.s, u.s) && Shrinks(k.s, u.s, None)
  {
    hide Inv, Linked, AllPlaced, Placed, MutexUnlock, MutexesOk, MakeReady, Restore, T, R, W, Without;
    SelfFacts(k);
    MutexesOfInv(k);
    var self := Self(k);
    assert Owns(k, self, m);
    var r, w, s := UnlockHandsOver(k, m);
    var u := k.(s := s, mutexes := k.mutexes[m := Mutex(w, if w.Some? then 1 else 0)]);
    if w.Some? {
      WaiterIsBlocked(r, MutexWaiters(m));
      s := MakeReadyFrame(r, w.value, OK);
    }
    HandOverKeepsMutexes(k, u, self, m, w);
  }

  /** An index that ran over the end of the buffer once. */
  lemma WrapsOnce(x: nat, n: nat)
    requires 0 < n && x < 2 * n
    ensures x % n == if x < n then x else x - n
  {
    var d := x / n;
    assert x == d * n + x % n;
    if d >= 2 { TwiceAround(d, n); }
  }

  lemma TwiceAround(d: nat, n: nat)
    requires d >= 2
    ensures d * n >= 2 * n
  {
    assert d * n == (d - 2) * n + 2 * n;
  }

  lemma CopyKeepsQueue(q: Queue, item: Item)
    requires QueueOk(q)
    ensures q.count < |q.buffer| ==> QueueOk(CopyIn(q, item))
    ensures q.count > 0 ==> QueueOk(CopyOut(q).0)
  {
    var n := |q.buffer|;
    if n > 0 {
      WrapsOnce(q.head + q.count, n);
      WrapsOnce(q.tail + 1, n);
      WrapsOnce(q.head + 1, n);
      if q.count < n { WrapsOnce(q.head + q.count + 1, n); }
      if q.count > 0 { WrapsOnce((q.head + 1) % n + (q.count - 1), n); }
    }
  }

  // ---- all of it, over every run ---------------------------------------------------------

  lemma SemsKept(k: Kernel, step: Step)
    requires Inv(k) && Enabled(k, step) && NoMutex(step)
    requires Shrinks(k.s, Next(k, step).0.s, Joins(step))
    ensures SemsOk(Next(k, step).0)
  {
    hide Inv, Linked, AllPlaced, MutexesOk, QueuesOk, IdleOk, TaskCode, Resumed, SelectNext, Tick, BlockOn, Leave,
         WakeWaiter, CreateTask, SuspendTask, ResumeTask, Shrinks, W, T, CopyIn, CopyOut, CanDispatch;
    MutexesOfInv(k);
    var u := Next(k, step).0;
    match step
    case Take(id, timeout) => if k.sems[id].count == 0 { ShrinkKeepsSems(k, u, Joins(step)); }
    case Give(id) => GiveKeepsSems(k, id);
    case GiveFromIsr(id) => GiveKeepsSems(k, id);
    case _ => ShrinkKeepsSems(k, u, Joins(step));
  }

  /** A give counts up only when nobody waits. */
  lemma GiveKeepsSems(k: Kernel, id: nat)
    requires SemsOk(k) && id in k.sems && Shrinks(k.s, SemGive(k, id).0.s, None)
    ensures SemsOk(SemGive(k, id).0)
  {
    hide MakeReady, Shrinks, W;
    var u := SemGive(k, id).0;
    if u.sems == k.sems { ShrinkKeepsSems(k, u, None); }
  }

  lemma QueuesKept(k: Kernel, step: Step)
    requires Inv(k) && Enabled(k, step)
    ensures QueuesOk(Next(k, step).0)
  {
    hide Inv, Linked, AllPlaced, MutexesOk, SemsOk, IdleOk, TaskCode, Resumed, SelectNext, Tick, BlockOn, Leave,
         WakeWaiter, CreateTask, SuspendTask, ResumeTask, MutexLock, MutexUnlock, Enter, T, CopyIn, CopyOut,
         CanDispatch, QueueOk;
    MutexesOfInv(k);
    match step
    case Lock(m, timeout) => LockEnds(k, m, timeout);
    case Unlock(m) => UnlockEnds(k, m);
    case Send(q, item, _) => CopyKeepsQueue(k.queues[q], item);
    case SendReturn(q) => CopyKeepsQueue(k.queues[q], T(k.s, Self(k)).call.item);
    case SendFromIsr(q, item) => CopyKeepsQueue(k.queues[q], item);
    case Receive(q, _) => CopyKeepsQueue(k.queues[q], 0);
    case ReceiveReturn(q) => CopyKeepsQueue(k.queues[q], 0);
    case _ =>
  }

  /** The mutex steps, seen from everything else. */
  lemma MutexStepKeeps(k: Kernel, step: Step)
    requires Inv(k) && Enabled(k, step) && !NoMutex(step)
    ensures var u := Next(k, step).0;
      && Linked(u.s) && AllPlaced(u.s) && MutexesOk(u) && IdleOk(u.s) && SemsOk(u)
  {
    hide Inv, Linked, AllPlaced, Placed, Plain, Evolves, TaskCode, MutexesOk, SemsOk, IdleOk, MutexLock, MutexUnlock,
         Shrinks, T, Leave, Enter;
    MutexesOfInv(k);
    var u := Next(k, step).0;
    match step
    case Lock(m, timeout) =>
      LockEnds(k, m, timeout);
      if MutexLock(k, m, timeout).1 == Waits {
        LockWaitsKeeps(k, m, timeout);
        ShrinkKeepsSems(k, u, Some(MutexWaiters(m)));
      } else {
        LockTakesKeeps(k, m, timeout);
        SameSems(k, u);
      }
    case LockReturn(m) =>
      SelfFacts(k);
      LeaveQuiet(k.s, Self(k));
      OrdinaryLeave(k);
      JoinsNoMutex(k, u, None);
      ShrinkKeepsSems(k, u, None);
    case Unlock(m) =>
      UnlockEnds(k, m);
      UnlockKeepsMutexes(k, m);
      ShrinkKeepsSems(k, u, None);
  }

  lemma LockEnds(k: Kernel, m: nat, timeout: nat)
    requires m in k.mutexes
    ensures var u := MutexLock(k, m, timeout).0; u.sems == k.sems && u.queues == k.queues
  {}

  lemma UnlockEnds(k: Kernel, m: nat)
    requires m in k.mutexes
    ensures var u := MutexUnlock(k, m).0; u.sems == k.sems && u.queues == k.queues
  {}

  lemma SameSems(k: Kernel, u: Kernel)
    requires SemsOk(k) && u.s == k.s && u.sems == k.sems
    ensures SemsOk(u)
  {}

  lemma JoinsNoMutex(k: Kernel, u: Kernel, w: Option<WaitList>)
    requires MutexesOk(k) && Plain(k.s, u.s, w) && u.mutexes == k.mutexes && (w.Some? ==> !w.value.MutexWaiters?)
    requires IdleOk(k.s)
    ensures Linked(u.s) && AllPlaced(u.s) && MutexesOk(u) && IdleOk(u.s) && Shrinks(k.s, u.s, w)
  {
    hide Linked, AllPlaced, MutexesOk, Quiet, T, W;
    QuietKeepsMutexes(k, u);
  }

  /** Every step keeps the invariant. */
  lemma NextKeeps(k: Kernel, step: Step)
    requires Inv(k) && Enabled(k, step)
    ensures Inv(Next(k, step).0)
  {
    hide Linked, AllPlaced, MutexesOk, SemsOk, QueuesOk, IdleOk, Plain, Shrinks, Enabled, Next;
    QueuesKept(k, step);
    if NoMutex(step) {
      PlainStep(k, step);
      JoinsNoMutex(k, Next(k, step).0, Joins(step));
      SemsKept(k, step);
    } else {
      MutexStepKeeps(k, step);
    }
  }

  lemma BootInv(k: Kernel)
    requires Boot(k)
    ensures Inv(k)
  {
    var s := Sched(map[], map[], {}, [], map[], 0, None, 0);
    assert Linked(s) && AllPlaced(s);
    CreateTaskKeeps(s, IDLE, 0);
  }

  /** Membership, signals and object invariants hold after any run from boot. */
  lemma {:induction false} Reachable(k: Kernel, steps: seq<Step>)
    requires Inv(k) && Legal(k, steps)
    ensures Inv(Run(k, steps))
    decreases |steps|
  {
    if steps != [] {
      hide Inv, Next, Enabled;
      NextKeeps(k, steps[0]);
      Reachable(Next(k, steps[0]).0, steps[1..]);
    }
  }

  /** Where a task in each state is, and what it is on; `w` any wait list. */
  ghost predicate WhereTasksAre(s: Sched) {
    && (forall t :: t in s.tasks && T(s, t).state == Running ==> s.cur == Some(t))
    && (forall n, t {:trigger t in R(s, n)} ::
          t in R(s, n) <==> t in s.tasks && T(s, t).state == Ready && T(s, t).link == OnReady(n))
    && (forall t :: t in s.tasks && T(s, t).state == Ready ==> T(s, t).link.OnReady?)
    && (forall t :: t in s.delayed <==> t in s.tasks && T(s, t).state == Blocked && Timed(T(s, t).call))
    && (forall w, t {:trigger t in W(s, w)} ::
          t in W(s, w) <==> t in s.tasks && T(s, t).state == Blocked && WaitsOn(T(s, t).call) == Some(w))
    && (forall n: nat :: NoDup(R(s, n)) && (R(s, n) != [] ==> n in s.bits && n < MAX_PRIORITIES))
    && NoDup(s.delayed) && (forall w :: NoDup(W(s, w)))
  }

  lemma InvSaysWhere(s: Sched)
    requires Linked(s) && AllPlaced(s)
    ensures WhereTasksAre(s)
  {
    forall t | t in s.tasks ensures Placed(s, t) {}
    hide T, R, W, NoDup;
  }

  /**
   * In every state of every run: at most one task is RUNNING and it is the current one; a READY task is on exactly
   * one ready list; the delayed list holds the tasks blocked with a finite wait; a wait list holds the tasks blocked
   * in a call on its object; no task is on a list twice; and every non-empty ready list has its bit set.
   */
  lemma MembershipOverRuns(k: Kernel, steps: seq<Step>)
    requires Boot(k) && Legal(k, steps)
    ensures WhereTasksAre(Run(k, steps).s)
  {
    hide Boot, Inv, Linked, AllPlaced, Legal, Run, WhereTasksAre;
    BootInv(k);
    Reachable(k, steps);
    MutexesOfInv(Run(k, steps));
    InvSaysWhere(Run(k, steps).s);
  }
}

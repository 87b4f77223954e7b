/**
 * mutex.c, semaphore.c and queue.c in place. Each object is called in a kernel state `k` it is part of, and
 * leaves itself and the scheduler in the state the kernel's step leads to.
 */
module PrimitivesCode {
  import opened Base
  import opened Sequences
  import opened Scheduler
  import opened Membership
  import opened Kernel
  import opened Invariants
  import opened SchedulerCode

  lemma CallerFacts(k: Kernel)
    requires Inv(k) && (TaskCode(k) || Resumed(k))
    ensures k.s.cur == Some(Self(k)) && Self(k) in k.s.tasks && T(k.s, Self(k)).prio < MAX_PRIORITIES
    ensures T(k.s, Self(k)).event == None && Linked(k.s) && AllPlaced(k.s)
  {
    SelfFacts(k);
  }

  class MutexObject {
    const id: nat
    const sched: SchedulerState
    var owner: Option<Tid>
    var lockCount: nat

    ghost function State(): Mutex
      reads this
    {
      Mutex(owner, lockCount)
    }

    /** The object is mutex `id` of the kernel state `k`. */
    ghost predicate In(k: Kernel)
      reads this, sched, sched.links, sched.events, sched.Repr()
    {
      && this !in sched.Repr() && sched.Valid() && sched.State() == k.s && MutexWaiters(id) in sched.events.heads
      && id in k.mutexes && k.mutexes[id] == State()
    }

    /** nimble_mutex_init. */
    constructor (id: nat, sched: SchedulerState)
      requires sched.Valid() && MutexWaiters(id) !in sched.events.heads
      modifies sched.Repr()
      ensures this !in sched.Repr() && sched.Valid() && sched.State() == old(sched.State())
      ensures fresh(sched.Repr() - old(sched.Repr()))
      ensures sched.events.heads.Keys == old(sched.events.heads.Keys) + {MutexWaiters(id)}
      ensures State() == Mutex(None, 0) && this.id == id && this.sched == sched
    {
      hide SchedulerState.Valid;
      this.id, this.sched := id, sched;
      owner, lockCount := None, 0;
      new;
      sched.InitWaitList(MutexWaiters(id));
    }

    method Lock(timeout: nat, ghost k: Kernel) returns (out: Out)
      requires Inv(k) && In(k) && Enabled(k, Step.Lock(id, timeout))
      modifies this, sched.Repr()
      ensures sched.Shape() == old(sched.Shape())
      ensures In(MutexLock(k, id, timeout).0) && out == MutexLock(k, id, timeout).1
    {
      hide SchedulerState.Valid, Inv, BlockOn, T;
      CallerFacts(k);
      var self := sched.currentTcb.value;
      if owner == None {
        owner, lockCount := Some(self), 1;
        return Returns(OK);
      }
      if owner == Some(self) {
        lockCount := (lockCount + 1) % U32;
        return Returns(OK);
      }
      if timeout == NO_WAIT {
        return Returns(Timeout);
      }
      OwnerKnown(k, id);
      sched.TaskIs(self);
      sched.TaskIs(owner.value);
      if sched.Task(self).prio > sched.Task(owner.value).prio {
        sched.SetTask(owner.value, sched.Task(owner.value).(prio := sched.Task(self).prio));
      }
      sched.BlockOnCall(self, Locking(id, timeout));
      return Waits;
    }

    method LockReturn(ghost k: Kernel) returns (out: Out)
      requires Inv(k) && In(k) && Enabled(k, Step.LockReturn(id))
      modifies sched.Repr()
      ensures sched.Shape() == old(sched.Shape())
      ensures In(MutexLockReturn(k, id).0) && out == MutexLockReturn(k, id).1
    {
      hide SchedulerState.Valid, Inv, T, Leave, Resumed;
      CallerFacts(k);
      var self := sched.currentTcb.value;
      sched.TaskIs(self);
      if owner == Some(self) {
        sched.SetTask(self, sched.Task(self).(call := NoCall, answers := 0));
        return Returns(OK);
      }
      sched.LeaveCall(self);
      return Returns(Timeout);
    }

    method Unlock(ghost k: Kernel) returns (out: Out)
      requires Inv(k) && In(k) && Enabled(k, Step.Unlock(id))
      modifies this, sched.Repr()
      ensures sched.Shape() == old(sched.Shape())
      ensures In(MutexUnlock(k, id).0) && out == MutexUnlock(k, id).1
    {
      hide SchedulerState.Valid, Inv, Linked, AllPlaced, WakeWaiter, T;
      CallerFacts(k);
      var self := sched.currentTcb.value;
      if owner != Some(self) {
        return Returns(NotOwner);
      }
      lockCount := (lockCount + U32 - 1) % U32;
      if lockCount > 0 {
        return Returns(OK);
      }
      BaseInRange(k);
      sched.TaskIs(self);
      sched.SetTask(self, sched.Task(self).(prio := sched.Task(self).base));
      owner := None;
      var woken := sched.WakeWaiterOf(MutexWaiters(id));
      if woken.Some? {
        owner, lockCount := woken, 1;
      }
      return Returns(OK);
    }
  }

  lemma OwnerKnown(k: Kernel, m: nat)
    requires Inv(k) && m in k.mutexes && k.mutexes[m].owner.Some?
    ensures k.mutexes[m].owner.value in k.s.tasks
  {
    assert Owns(k, k.mutexes[m].owner.value, m);
  }

  /** The caller may go back to its base priority. */
  lemma BaseInRange(k: Kernel)
    requires Inv(k) && TaskCode(k)
    ensures T(k.s, Self(k)).base < MAX_PRIORITIES && Linked(Restore(k.s, Self(k)))
  {
    SelfFacts(k);
    PrioKeeps(k.s, Self(k), T(k.s, Self(k)).base);
  }

  class SemaphoreObject {
    const id: nat
    const sched: SchedulerState
    var count: nat
    const max: nat

    ghost function State(): Semaphore
      reads this
    {
      Semaphore(count, max)
    }

    ghost predicate In(k: Kernel)
      reads this, sched, sched.links, sched.events, sched.Repr()
    {
      && this !in sched.Repr() && sched.Valid() && sched.State() == k.s && SemWaiters(id) in sched.events.heads
      && id in k.sems && k.sems[id] == State()
    }

    /** nimble_semaphore_init. */
    constructor (id: nat, sched: SchedulerState, initial: nat, max: nat)
      requires sched.Valid() && SemWaiters(id) !in sched.events.heads
      modifies sched.Repr()
      ensures this !in sched.Repr() && sched.Valid() && sched.State() == old(sched.State())
      ensures fresh(sched.Repr() - old(sched.Repr()))
      ensures sched.events.heads.Keys == old(sched.events.heads.Keys) + {SemWaiters(id)}
      ensures State() == Semaphore(initial, max) && this.id == id && this.sched == sched
    {
      hide SchedulerState.Valid;
      this.id, this.sched := id, sched;
      this.count, this.max := initial, max;
      new;
      sched.InitWaitList(SemWaiters(id));
    }

    method Take(timeout: nat, ghost k: Kernel) returns (out: Out)
      requires Inv(k) && In(k) && Enabled(k, Step.Take(id, timeout))
      modifies this, sched.Repr()
      ensures sched.Shape() == old(sched.Shape())
      ensures In(SemTake(k, id, timeout).0) && out == SemTake(k, id, timeout).1
    {
      hide SchedulerState.Valid, Inv, BlockOn, T;
      CallerFacts(k);
      if count > 0 {
        count := count - 1;
        return Returns(OK);
      }
      if timeout == NO_WAIT {
        return Returns(Timeout);
      }
      sched.TaskIs(sched.currentTcb.value);
      sched.BlockOnCall(sched.currentTcb.value, Taking(id, timeout));
      return Waits;
    }

    method TakeReturn(ghost k: Kernel) returns (out: Out)
      requires Inv(k) && In(k) && Enabled(k, Step.TakeReturn(id))
      modifies sched.Repr()
      ensures sched.Shape() == old(sched.Shape())
      ensures In(SemTakeReturn(k).0) && out == SemTakeReturn(k).1
    {
      hide SchedulerState.Valid, Inv, Leave;
      CallerFacts(k);
      var self := sched.currentTcb.value;
      sched.TaskIs(self);
      out := Returns(sched.Task(self).result);
      sched.LeaveCall(self);
    }

    method Give(ghost k: Kernel) returns (out: Out)
      requires Inv(k) && In(k)
      modifies this, sched.Repr()
      ensures sched.Shape() == old(sched.Shape())
      ensures In(SemGive(k, id).0) && out == SemGive(k, id).1
    {
      hide SchedulerState.Valid, Inv, Linked, AllPlaced, MakeReady, W;
      MutexesOfInv(k);
      var woken := sched.WakeWaiterOf(SemWaiters(id));
      if woken == None && count < max {
        count := count + 1;
      }
      return Returns(OK);
    }

    /** The form for interrupts asks for a switch exactly if it woke a task. */
    method GiveFromIsr(ghost k: Kernel) returns (out: Out, needsYield: bool)
      requires Inv(k) && In(k)
      modifies this, sched.Repr()
      ensures sched.Shape() == old(sched.Shape())
      ensures In(SemGive(k, id).0) && out == SemGive(k, id).1
      ensures needsYield <==> W(k.s, SemWaiters(id)) != []
    {
      hide SchedulerState.Valid, Inv, Linked, AllPlaced, MakeReady, W;
      MutexesOfInv(k);
      var woken := sched.WakeWaiterOf(SemWaiters(id));
      if woken.Some? {
        return Returns(OK), true;
      }
      if count < max {
        count := count + 1;
      }
      return Returns(OK), false;
    }
  }

  class QueueObject {
    const id: nat
    const sched: SchedulerState
    const buffer: array<Item>
    var head: nat
    var tail: nat
    var count: nat

    ghost function State(): Queue
      reads this, buffer
    {
      Queue(buffer[..], head, tail, count)
    }

    ghost predicate In(k: Kernel)
      reads this, buffer, sched, sched.links, sched.events, sched.Repr()
    {
      && this !in sched.Repr() && buffer !in sched.Repr() && sched.Valid() && sched.State() == k.s
      && Senders(id) in sched.events.heads && Receivers(id) in sched.events.heads
      && id in k.queues && k.queues[id] == State()
    }

    /** nimble_queue_init on the caller's buffer. */
    constructor (id: nat, sched: SchedulerState, buffer: array<Item>)
      requires sched.Valid() && Senders(id) !in sched.events.heads && Receivers(id) !in sched.events.heads
      requires buffer !in sched.Repr()
      modifies sched.Repr()
      ensures this !in sched.Repr() && buffer !in sched.Repr() && sched.Valid() && sched.State() == old(sched.State())
      ensures fresh(sched.Repr() - old(sched.Repr()))
      ensures sched.events.heads.Keys == old(sched.events.heads.Keys) + {Senders(id), Receivers(id)}
      ensures State() == Queue(old(buffer[..]), 0, 0, 0) && this.id == id && this.sched == sched
          && this.buffer == buffer
    {
      hide SchedulerState.Valid;
      this.id, this.sched, this.buffer := id, sched, buffer;
      head, tail, count := 0, 0, 0;
      new;
      sched.InitWaitList(Senders(id));
      sched.InitWaitList(Receivers(id));
    }

    /** copy_in, in place. */
    method Put(item: Item)
      requires QueueOk(State()) && count < buffer.Length
      modifies this, buffer
      ensures State() == CopyIn(old(State()), item)
    {
      RingInRange(State());
      buffer[tail] := item;
      tail := (tail + 1) % buffer.Length;
      count := count + 1;
    }

    /** copy_out, in place. */
    method Get() returns (item: Item)
      requires QueueOk(State()) && count > 0
      modifies this
      ensures State() == CopyOut(old(State())).0 && item == CopyOut(old(State())).1
    {
      RingInRange(State());
      item := buffer[head];
      head := (head + 1) % buffer.Length;
      count := count - 1;
    }

    method Send(item: Item, timeout: nat, ghost k: Kernel) returns (out: Out)
      requires Inv(k) && In(k) && Enabled(k, Step.Send(id, item, timeout))
      modifies this, buffer, sched.Repr()
      ensures sched.Shape() == old(sched.Shape())
      ensures In(QueueSend(k, id, item, timeout).0) && out == QueueSend(k, id, item, timeout).1
    {
      hide SchedulerState.Valid, Inv, Linked, AllPlaced, QueueOk, BlockOn, WakeWaiter, CopyIn, T;
      CallerFacts(k);
      RingIsOk(k, id);
      if count < buffer.Length {
        Put(item);
        var woken := sched.WakeWaiterOf(Receivers(id));
        return Returns(OK);
      }
      if timeout == NO_WAIT {
        return Returns(Full);
      }
      sched.TaskIs(sched.currentTcb.value);
      sched.BlockOnCall(sched.currentTcb.value, Sending(id, item, timeout));
      return Waits;
    }

    method SendReturn(ghost k: Kernel) returns (out: Out)
      requires Inv(k) && In(k) && Enabled(k, Step.SendReturn(id))
      modifies this, buffer, sched.Repr()
      ensures sched.Shape() == old(sched.Shape())
      ensures In(Next(k, Step.SendReturn(id)).0) && out == Next(k, Step.SendReturn(id)).1
    {
      hide SchedulerState.Valid, Inv, Linked, AllPlaced, QueueOk, Leave, CopyIn, Enabled, Next, Resumed;
      SendResumes(k, id);
      CallerFacts(k);
      RingIsOk(k, id);
      var self := sched.currentTcb.value;
      sched.TaskIs(self);
      var result, item := sched.Task(self).result, sched.Task(self).call.item;
      sched.LeaveCall(self);
      if result == Timeout {
        return Returns(Timeout);
      }
      if count < buffer.Length {
        Put(item);
        return Returns(OK);
      }
      return Returns(Full);
    }

    method Receive(timeout: nat, ghost k: Kernel) returns (out: Out)
      requires Inv(k) && In(k) && Enabled(k, Step.Receive(id, timeout))
      modifies this, sched.Repr()
      ensures sched.Shape() == old(sched.Shape())
      ensures In(QueueReceive(k, id, timeout).0) && out == QueueReceive(k, id, timeout).1
    {
      hide SchedulerState.Valid, Inv, Linked, AllPlaced, QueueOk, BlockOn, WakeWaiter, CopyOut, T;
      CallerFacts(k);
      RingIsOk(k, id);
      if count > 0 {
        var item := Get();
        var woken := sched.WakeWaiterOf(Senders(id));
        return Got(item);
      }
      if timeout == NO_WAIT {
        return Returns(Empty);
      }
      sched.TaskIs(sched.currentTcb.value);
      sched.BlockOnCall(sched.currentTcb.value, Receiving(id, timeout));
      return Waits;
    }

    method ReceiveReturn(ghost k: Kernel) returns (out: Out)
      requires Inv(k) && In(k) && Enabled(k, Step.ReceiveReturn(id))
      modifies this, sched.Repr()
      ensures sched.Shape() == old(sched.Shape())
      ensures In(QueueReceiveReturn(k, id).0) && out == QueueReceiveReturn(k, id).1
    {
      hide SchedulerState.Valid, Inv, Linked, AllPlaced, QueueOk, Leave, CopyOut;
      CallerFacts(k);
      RingIsOk(k, id);
      var self := sched.currentTcb.value;
      sched.TaskIs(self);
      var result := sched.Task(self).result;
      sched.LeaveCall(self);
      if result == Timeout {
        return Returns(Timeout);
      }
      if count > 0 {
        var item := Get();
        return Got(item);
      }
      return Returns(Empty);
    }

    method SendFromIsr(item: Item, ghost k: Kernel) returns (out: Out, needsYield: bool)
      requires Inv(k) && In(k)
      modifies this, buffer, sched.Repr()
      ensures sched.Shape() == old(sched.Shape())
      ensures In(QueueSendFromIsr(k, id, item).0) && out == QueueSendFromIsr(k, id, item).1
      ensures needsYield <==> out == Returns(OK) && W(k.s, Receivers(id)) != []
    {
      hide SchedulerState.Valid, Inv, Linked, AllPlaced, QueueOk, CopyIn, MakeReady, W;
      MutexesOfInv(k);
      RingIsOk(k, id);
      if count >= buffer.Length {
        return Returns(Full), false;
      }
      Put(item);
      var woken := sched.WakeWaiterOf(Receivers(id));
      return Returns(OK), woken.Some?;
    }
  }

  lemma SendResumes(k: Kernel, id: nat)
    requires Enabled(k, Step.SendReturn(id))
    ensures Resumed(k) && id in k.queues && T(k.s, Self(k)).call.Sending?
    ensures Next(k, Step.SendReturn(id)) == QueueSendReturn(k, id, T(k.s, Self(k)).call.item)
  {}

  lemma RingIsOk(k: Kernel, id: nat)
    requires Inv(k) && id in k.queues
    ensures QueueOk(k.queues[id])
  {}

  /** A ring with room for an item, or with an item, has its indices inside the buffer. */
  lemma RingInRange(q: Queue)
    requires QueueOk(q) && |q.buffer| > 0
    ensures q.head < |q.buffer| && q.tail < |q.buffer|
  {}
}

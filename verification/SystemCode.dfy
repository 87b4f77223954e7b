/**
 * The code as a whole: one scheduler and the mutexes, semaphores and queues of an application, on one heap. Whatever
 * calls are made, in whatever order, the objects stay apart and together are in the kernel's state.
 */
module SystemCode {
  import opened Base
  import opened Scheduler
  import opened Membership
  import opened Kernel
  import opened Invariants
  import opened SchedulerCode
  import opened PrimitivesCode
  import opened Contracts
  import IntrusiveList

  /** What the calls of a run return. */
  function Outs(k: Kernel, steps: seq<Step>): seq<Out>
    requires Legal(k, steps)
    decreases |steps|
  {
    if steps == [] then [] else [Next(k, steps[0]).1] + Outs(Next(k, steps[0]).0, steps[1..])
  }

  lemma FirstStep(k: Kernel, steps: seq<Step>)
    requires Legal(k, steps) && steps != []
    ensures Enabled(k, steps[0]) && Legal(Next(k, steps[0]).0, steps[1..])
    ensures Run(k, steps) == Run(Next(k, steps[0]).0, steps[1..])
    ensures Outs(k, steps) == [Next(k, steps[0]).1] + Outs(Next(k, steps[0]).0, steps[1..])
  {}

  lemma NoSteps(k: Kernel)
    ensures Legal(k, []) && Run(k, []) == k && Outs(k, []) == []
  {}

  ghost function ObjectsOf(ms: map<nat, MutexObject>, cs: map<nat, SemaphoreObject>, qs: map<nat, QueueObject>):
    set<object>
  {
    ms.Values + cs.Values + qs.Values + (set q | q in qs.Values :: q.buffer)
  }

  /** Each object is an object of the scheduler, and no two objects share memory. */
  ghost predicate AllApart(repr: set<object>, sched: SchedulerState, ms: map<nat, MutexObject>,
                           cs: map<nat, SemaphoreObject>, qs: map<nat, QueueObject>) {
    && repr !! ObjectsOf(ms, cs, qs)
    && (forall m :: m in ms ==> ms[m].id == m && ms[m].sched == sched)
    && (forall c :: c in cs ==> cs[c].id == c && cs[c].sched == sched)
    && (forall q :: q in qs ==> qs[q].id == q && qs[q].sched == sched)
    && (forall p, q :: p in qs && q in qs && qs[p].buffer == qs[q].buffer ==> p == q)
  }

  /** Each object has its wait lists. */
  ghost predicate AllListed(heads: set<WaitList>, ms: set<nat>, cs: set<nat>, qs: set<nat>) {
    && (forall m :: MutexWaiters(m) in heads <==> m in ms)
    && (forall c :: SemWaiters(c) in heads <==> c in cs)
    && (forall q :: Senders(q) in heads <==> q in qs)
    && (forall q :: Receivers(q) in heads <==> q in qs)
  }

  lemma MutexJoins(repr: set<object>, heads: set<WaitList>, sched: SchedulerState, ms: map<nat, MutexObject>,
                   cs: map<nat, SemaphoreObject>, qs: map<nat, QueueObject>, id: nat, o: MutexObject)
    requires AllApart(repr, sched, ms, cs, qs) && AllListed(heads, ms.Keys, cs.Keys, qs.Keys)
    requires id !in ms && o !in repr && o.id == id && o.sched == sched
    ensures AllApart(repr, sched, ms[id := o], cs, qs)
    ensures AllListed(heads + {MutexWaiters(id)}, ms[id := o].Keys, cs.Keys, qs.Keys)
    ensures ObjectsOf(ms[id := o], cs, qs) == ObjectsOf(ms, cs, qs) + {o}
  {
    MapGrows(ms, id, o);
  }

  lemma SemaphoreJoins(repr: set<object>, heads: set<WaitList>, sched: SchedulerState, ms: map<nat, MutexObject>,
                       cs: map<nat, SemaphoreObject>, qs: map<nat, QueueObject>, id: nat, o: SemaphoreObject)
    requires AllApart(repr, sched, ms, cs, qs) && AllListed(heads, ms.Keys, cs.Keys, qs.Keys)
    requires id !in cs && o !in repr && o.id == id && o.sched == sched
    ensures AllApart(repr, sched, ms, cs[id := o], qs)
    ensures AllListed(heads + {SemWaiters(id)}, ms.Keys, cs[id := o].Keys, qs.Keys)
    ensures ObjectsOf(ms, cs[id := o], qs) == ObjectsOf(ms, cs, qs) + {o}
  {
    MapGrows(cs, id, o);
  }

  lemma QueueJoins(repr: set<object>, heads: set<WaitList>, sched: SchedulerState, ms: map<nat, MutexObject>,
                   cs: map<nat, SemaphoreObject>, qs: map<nat, QueueObject>, id: nat, o: QueueObject)
    requires AllApart(repr, sched, ms, cs, qs) && AllListed(heads, ms.Keys, cs.Keys, qs.Keys)
    requires id !in qs && o !in repr && o.id == id && o.sched == sched
    requires o.buffer !in repr && o.buffer !in ObjectsOf(ms, cs, qs)
    ensures AllApart(repr, sched, ms, cs, qs[id := o])
    ensures AllListed(heads + {Senders(id), Receivers(id)}, ms.Keys, cs.Keys, qs[id := o].Keys)
    ensures ObjectsOf(ms, cs, qs[id := o]) == ObjectsOf(ms, cs, qs) + {o, o.buffer}
  {
    QueueListed(heads, ms.Keys, cs.Keys, qs.Keys, id);
    QueueObjects(ms, cs, qs, id, o);
    hide AllListed, ObjectsOf;
    MapGrows(qs, id, o);
  }

  lemma QueueObjects(ms: map<nat, MutexObject>, cs: map<nat, SemaphoreObject>, qs: map<nat, QueueObject>, id: nat,
                     o: QueueObject)
    requires id !in qs
    ensures ObjectsOf(ms, cs, qs[id := o]) == ObjectsOf(ms, cs, qs) + {o, o.buffer}
    ensures forall q :: q in qs ==> qs[q].buffer in ObjectsOf(ms, cs, qs)
  {
    MapGrows(qs, id, o);
    BuffersJoin(qs, id, o);
  }

  lemma QueueListed(heads: set<WaitList>, ms: set<nat>, cs: set<nat>, qs: set<nat>, id: nat)
    requires AllListed(heads, ms, cs, qs)
    ensures AllListed(heads + {Senders(id), Receivers(id)}, ms, cs, qs + {id})
  {}

  lemma BuffersJoin(qs: map<nat, QueueObject>, id: nat, o: QueueObject)
    requires id !in qs
    ensures (set q | q in qs[id := o].Values :: q.buffer) == (set q | q in qs.Values :: q.buffer) + {o.buffer}
  {
    MapGrows(qs, id, o);
  }

  lemma MapGrows<V>(m: map<nat, V>, id: nat, v: V)
    requires id !in m
    ensures m[id := v].Values == m.Values + {v} && m[id := v].Keys == m.Keys + {id}
    ensures forall x :: x in m ==> m[id := v][x] == m[x]
  {
    var n := m[id := v];
    assert n[id] == v && forall x :: x in m ==> n[x] == m[x];
  }

  /** More objects, just initialised, and the kernel is still about to start. */
  lemma StillBoots(k: Kernel, id: nat, c: Semaphore, buffer: seq<Item>)
    requires Boot(k)
    ensures Boot(k.(mutexes := k.mutexes[id := Mutex(None, 0)])) && Boot(k.(sems := k.sems[id := c]))
    ensures Boot(k.(queues := k.queues[id := Queue(buffer, 0, 0, 0)]))
  {}

  class KernelObjects {
    const sched: SchedulerState
    var mutexes: map<nat, MutexObject>
    var sems: map<nat, SemaphoreObject>
    var queues: map<nat, QueueObject>

    ghost function Objects(): set<object>
      reads this
    {
      ObjectsOf(mutexes, sems, queues)
    }

    ghost function State(): Kernel
      reads this, sched, Objects()
    {
      Kernel(sched.State(), map m | m in mutexes :: mutexes[m].State(), map c | c in sems :: sems[c].State(),
             map q | q in queues :: queues[q].State())
    }

    ghost predicate Apart(repr: set<object>)
      reads this
    {
      this !in repr && AllApart(repr, sched, mutexes, sems, queues)
    }

    ghost predicate Listed(heads: set<WaitList>)
      reads this
    {
      AllListed(heads, mutexes.Keys, sems.Keys, queues.Keys)
    }

    ghost predicate Valid()
      reads this, sched, sched.links, sched.events, sched.Repr()
    {
      sched.Valid() && Apart(sched.Repr()) && Listed(sched.events.heads.Keys)
    }

    /** nimble_scheduler_init, which creates the idle task. */
    constructor ()
      ensures Valid() && fresh(sched.Repr()) && Objects() == {}
      ensures Boot(State()) && State().mutexes == map[] && State().sems == map[] && State().queues == map[]
    {
      hide SchedulerState.Valid, CreateTask;
      var s := new SchedulerState();
      var status := s.Create(IDLE, 0);
      sched := s;
      mutexes, sems, queues := map[], map[], map[];
    }

    // ---- the objects ---------------------------------------------------------------------

    lemma NotListed(id: nat)
      requires Valid()
      ensures id !in mutexes ==> MutexWaiters(id) !in sched.events.heads
      ensures id !in sems ==> SemWaiters(id) !in sched.events.heads
      ensures id !in queues ==> Senders(id) !in sched.events.heads && Receivers(id) !in sched.events.heads
    {}

    /** nimble_mutex_init: the new mutex is free, and nothing else changes. */
    method AddMutex(id: nat)
      requires Valid() && id !in mutexes
      modifies this, sched.Repr()
      ensures Valid() && fresh(sched.Repr() - old(sched.Repr())) && fresh(Objects() - old(Objects()))
      ensures State() == old(State()).(mutexes := old(State()).mutexes[id := Mutex(None, 0)])
      ensures old(Boot(State())) ==> Boot(State())
    {
      hide SchedulerState.Valid, SchedulerState.Repr, Apart, Listed, State, AsIn, Objects, Boot;
      ghost var k, repr := State(), sched.Repr();
      StateIsAsIn({});
      StaysApart();
      NotListed(id);
      assert allocated(Objects()) && allocated(this);
      var o := new MutexObject(id, sched);
      assert forall x :: x in sched.Repr() && x !in repr ==> fresh(x);
      ApartFrom(repr, sched.Repr());
      KeepMutex(id, o, k, old(sched.events.heads.Keys));
      if Boot(k) { StillBoots(k, id, Semaphore(0, 0), []); }
    }

    method KeepMutex(id: nat, o: MutexObject, ghost k: Kernel, ghost heads: set<WaitList>)
      requires sched.Valid() && Apart(sched.Repr()) && Listed(heads) && sched.State() == k.s && AsIn(k, {})
      requires id !in mutexes && o !in Objects() && o !in sched.Repr() && o.id == id && o.sched == sched
      requires sched.events.heads.Keys == heads + {MutexWaiters(id)}
      modifies this
      ensures Valid() && Objects() == old(Objects()) + {o}
      ensures State() == k.(mutexes := k.mutexes[id := o.State()])
    {
      hide SchedulerState.Valid, SchedulerState.State, State, MutexObject.State, AllApart, AllListed, ObjectsOf;
      MutexJoins(sched.Repr(), heads, sched, mutexes, sems, queues, id, o);
      mutexes := mutexes[id := o];
      IsAsIn(k.(mutexes := k.mutexes[id := o.State()]));
    }

    /** nimble_semaphore_init. */
    method AddSemaphore(id: nat, initial: nat, max: nat)
      requires Valid() && id !in sems
      modifies this, sched.Repr()
      ensures Valid() && fresh(sched.Repr() - old(sched.Repr())) && fresh(Objects() - old(Objects()))
      ensures State() == old(State()).(sems := old(State()).sems[id := Semaphore(initial, max)])
      ensures old(Boot(State())) ==> Boot(State())
    {
      hide SchedulerState.Valid, SchedulerState.Repr, Apart, Listed, State, AsIn, Objects, Boot;
      ghost var k, repr := State(), sched.Repr();
      StateIsAsIn({});
      StaysApart();
      NotListed(id);
      assert allocated(Objects()) && allocated(this);
      var o := new SemaphoreObject(id, sched, initial, max);
      assert forall x :: x in sched.Repr() && x !in repr ==> fresh(x);
      ApartFrom(repr, sched.Repr());
      KeepSemaphore(id, o, k, old(sched.events.heads.Keys));
      if Boot(k) { StillBoots(k, id, Semaphore(initial, max), []); }
    }

    method KeepSemaphore(id: nat, o: SemaphoreObject, ghost k: Kernel, ghost heads: set<WaitList>)
      requires sched.Valid() && Apart(sched.Repr()) && Listed(heads) && sched.State() == k.s && AsIn(k, {})
      requires id !in sems && o !in Objects() && o !in sched.Repr() && o.id == id && o.sched == sched
      requires sched.events.heads.Keys == heads + {SemWaiters(id)}
      modifies this
      ensures Valid() && Objects() == old(Objects()) + {o}
      ensures State() == k.(sems := k.sems[id := o.State()])
    {
      hide SchedulerState.Valid, SchedulerState.State, State, SemaphoreObject.State, AllApart, AllListed, ObjectsOf;
      SemaphoreJoins(sched.Repr(), heads, sched, mutexes, sems, queues, id, o);
      sems := sems[id := o];
      IsAsIn(k.(sems := k.sems[id := o.State()]));
    }

    /** nimble_queue_init, on memory of the caller that no object uses. */
    method AddQueue(id: nat, buffer: array<Item>)
      requires Valid() && id !in queues && buffer !in sched.Repr() && buffer !in Objects()
      modifies this, sched.Repr()
      ensures Valid() && fresh(sched.Repr() - old(sched.Repr())) && fresh(Objects() - old(Objects()) - {buffer})
      ensures State() == old(State()).(queues := old(State()).queues[id := Queue(old(buffer[..]), 0, 0, 0)])
      ensures old(Boot(State())) ==> Boot(State())
    {
      hide SchedulerState.Valid, SchedulerState.Repr, Apart, Listed, State, AsIn, Objects, Boot;
      ghost var k, repr := State(), sched.Repr();
      StateIsAsIn({});
      StaysApart();
      NotListed(id);
      assert allocated(Objects()) && allocated(this);
      var o := new QueueObject(id, sched, buffer);
      assert forall x :: x in sched.Repr() && x !in repr ==> fresh(x);
      ApartFrom(repr, sched.Repr());
      KeepQueue(id, o, k, old(sched.events.heads.Keys));
      if Boot(k) { StillBoots(k, id, Semaphore(0, 0), buffer[..]); }
    }

    method KeepQueue(id: nat, o: QueueObject, ghost k: Kernel, ghost heads: set<WaitList>)
      requires sched.Valid() && Apart(sched.Repr()) && Listed(heads) && sched.State() == k.s && AsIn(k, {})
      requires id !in queues && o !in Objects() && o !in sched.Repr() && o.id == id && o.sched == sched
      requires o.buffer !in sched.Repr() && o.buffer !in Objects()
      requires sched.events.heads.Keys == heads + {Senders(id), Receivers(id)}
      modifies this
      ensures Valid() && Objects() == old(Objects()) + {o, o.buffer}
      ensures State() == k.(queues := k.queues[id := o.State()])
    {
      hide SchedulerState.Valid, SchedulerState.State, State, QueueObject.State, AllApart, AllListed, ObjectsOf;
      QueueJoins(sched.Repr(), heads, sched, mutexes, sems, queues, id, o);
      queues := queues[id := o];
      IsAsIn(k.(queues := k.queues[id := o.State()]));
    }

    /** Every object is in the kernel's state. */
    lemma AllIn()
      requires Valid()
      ensures forall m :: m in mutexes ==> mutexes[m].In(State())
      ensures forall c :: c in sems ==> sems[c].In(State())
      ensures forall q :: q in queues ==> queues[q].In(State())
    {
      hide SchedulerState.Valid;
    }

    // ---- the calls -----------------------------------------------------------------------

    /** The objects are as `k` says, except perhaps those of `but`. */
    ghost predicate AsIn(k: Kernel, but: set<object>)
      reads this, Objects() - but
    {
      && k.mutexes.Keys == mutexes.Keys && k.sems.Keys == sems.Keys && k.queues.Keys == queues.Keys
      && (forall x :: x in mutexes && mutexes[x] !in but ==> mutexes[x].State() == k.mutexes[x])
      && (forall x :: x in sems && sems[x] !in but ==> sems[x].State() == k.sems[x])
      && (forall x :: x in queues && queues[x] !in but && queues[x].buffer !in but ==>
            queues[x].State() == k.queues[x])
    }

    lemma IsAsIn(k: Kernel)
      ensures State() == k <==> sched.State() == k.s && AsIn(k, {})
    {}

    lemma StateIsAsIn(but: set<object>)
      ensures AsIn(State(), but) && State().s == sched.State() && State().mutexes.Keys == mutexes.Keys
      ensures State().sems.Keys == sems.Keys && State().queues.Keys == queues.Keys
    {}

    lemma StaysApart()
      requires Valid()
      ensures sched.Repr() !! Objects() && this !in sched.Repr()
    {}

    /** A mutex is part of the kernel's state, and a call on it moves the state by its step. */
    lemma MutexIn(m: nat)
      requires Valid() && m in mutexes
      ensures mutexes[m].In(State()) && mutexes[m].id == m && mutexes[m].sched == sched && mutexes[m] in Objects()
    {
      hide SchedulerState.Valid;
    }

    lemma MutexMoves(m: nat, k: Kernel, n: Kernel)
      requires Apart(sched.Repr()) && m in mutexes && mutexes[m].In(n) && AsIn(k, {mutexes[m]})
      requires n == k.(s := n.s, mutexes := k.mutexes[m := n.mutexes[m]])
      ensures sched.Valid() && State() == n
    {
      hide SchedulerState.Valid, SchedulerState.State, State;
      IsAsIn(n);
      assert forall x :: x in mutexes && x != m ==> mutexes[x] != mutexes[m];
    }

    method OnMutex(step: Step) returns (out: Out)
      requires Valid() && Inv(State()) && Enabled(State(), step) && CallsMutex(step)
      modifies sched.Repr(), Objects()
      ensures Valid() && Framed(old(sched.Shape()), old(Fields()))
      ensures State() == Next(old(State()), step).0 && out == Next(old(State()), step).1
    {
      hide SchedulerState.Valid, Inv, Apart, Listed, State, AsIn, MutexObject.In, Enabled, Next, MutexLock,
           MutexLockReturn, MutexUnlock, Objects;
      ghost var k := State();
      OneMutex(k, step);
      StateIsAsIn({});
      StateIsAsIn({mutexes[step.m]});
      MutexIn(step.m);
      StaysApart();
      assert allocated(Objects());
      match step {
        case Lock(m, timeout) => out := mutexes[m].Lock(timeout, k);
        case LockReturn(m) => out := mutexes[m].LockReturn(k);
        case Unlock(m) => out := mutexes[m].Unlock(k);
      }
      MutexMoves(step.m, k, Next(k, step).0);
    }

    lemma SemaphoreIn(c: nat)
      requires Valid() && c in sems
      ensures sems[c].In(State()) && sems[c].id == c && sems[c].sched == sched && sems[c] in Objects()
    {
      hide SchedulerState.Valid;
    }

    lemma SemaphoreMoves(c: nat, k: Kernel, n: Kernel)
      requires Apart(sched.Repr()) && c in sems && sems[c].In(n) && AsIn(k, {sems[c]})
      requires n == k.(s := n.s, sems := k.sems[c := n.sems[c]])
      ensures sched.Valid() && State() == n
    {
      hide SchedulerState.Valid, SchedulerState.State, State;
      IsAsIn(n);
      assert forall x :: x in sems && x != c ==> sems[x] != sems[c];
    }

    method OnSemaphore(step: Step) returns (out: Out)
      requires Valid() && Inv(State()) && Enabled(State(), step) && CallsSemaphore(step)
      modifies sched.Repr(), Objects()
      ensures Valid() && Framed(old(sched.Shape()), old(Fields()))
      ensures State() == Next(old(State()), step).0 && out == Next(old(State()), step).1
    {
      hide SchedulerState.Valid, Inv, Apart, Listed, State, AsIn, SemaphoreObject.In, Enabled, Next, SemTake,
           SemTakeReturn, SemGive, Objects;
      ghost var k := State();
      OneSemaphore(k, step);
      StateIsAsIn({});
      StateIsAsIn({sems[step.sem]});
      SemaphoreIn(step.sem);
      StaysApart();
      assert allocated(Objects());
      match step {
        case Take(c, timeout) => out := sems[c].Take(timeout, k);
        case TakeReturn(c) => out := sems[c].TakeReturn(k);
        case Give(c) => out := sems[c].Give(k);
        case GiveFromIsr(c) => var needsYield; out, needsYield := sems[c].GiveFromIsr(k);
      }
      SemaphoreMoves(step.sem, k, Next(k, step).0);
    }

    lemma QueueIn(q: nat)
      requires Valid() && q in queues
      ensures queues[q].In(State()) && queues[q].id == q && queues[q].sched == sched
      ensures queues[q] in Objects() && queues[q].buffer in Objects()
    {
      hide SchedulerState.Valid;
    }

    lemma QueueObjectMoves(q: nat, k: Kernel, n: Kernel)
      requires Apart(sched.Repr()) && q in queues && queues[q].In(n) && AsIn(k, {queues[q], queues[q].buffer})
      requires n == k.(s := n.s, queues := k.queues[q := n.queues[q]])
      ensures sched.Valid() && State() == n
    {
      hide SchedulerState.Valid, SchedulerState.State, QueueObject.State, QueueObject.In, State, Apart;
      OneQueueObject(q, n);
      IsAsIn(n);
    }

    lemma OneQueueObject(q: nat, n: Kernel)
      requires Apart(sched.Repr()) && q in queues && queues[q].In(n)
      ensures sched.Valid() && sched.State() == n.s && q in n.queues && queues[q].State() == n.queues[q]
      ensures forall x :: x in queues && x != q ==> queues[x] != queues[q] && queues[x].buffer != queues[q].buffer
    {
      hide SchedulerState.Valid;
    }

    method OnQueue(step: Step) returns (out: Out)
      requires Valid() && Inv(State()) && Enabled(State(), step) && CallsQueue(step)
      modifies sched.Repr(), Objects()
      ensures Valid() && Framed(old(sched.Shape()), old(Fields()))
      ensures State() == Next(old(State()), step).0 && out == Next(old(State()), step).1
    {
      hide SchedulerState.Valid, Inv, Apart, Listed, State, AsIn, QueueObject.In, Enabled, Next, QueueSend,
           QueueReceive, QueueReceiveReturn, QueueSendFromIsr, Objects;
      ghost var k := State();
      OneQueue(k, step);
      StateIsAsIn({});
      StateIsAsIn({queues[step.q], queues[step.q].buffer});
      QueueIn(step.q);
      StaysApart();
      assert allocated(Objects());
      match step {
        case Send(q, item, timeout) => out := queues[q].Send(item, timeout, k);
        case SendReturn(q) => out := queues[q].SendReturn(k);
        case SendFromIsr(q, item) => var needsYield; out, needsYield := queues[q].SendFromIsr(item, k);
        case Receive(q, timeout) => out := queues[q].Receive(timeout, k);
        case ReceiveReturn(q) => out := queues[q].ReceiveReturn(k);
      }
      QueueObjectMoves(step.q, k, Next(k, step).0);
    }

    /** The steps on tasks, the tick and the switch. */
    method OnScheduler(step: Step) returns (out: Out)
      requires Valid() && Inv(State()) && Enabled(State(), step) && CallsTask(step) && !step.Create?
      modifies sched.Repr()
      ensures Valid() && Framed(old(sched.Shape()), old(Fields()))
      ensures State() == Next(old(State()), step).0 && out == Next(old(State()), step).1
    {
      hide SchedulerState.Valid, Inv, Apart, Listed, State, AsIn, Linked, AllPlaced, SelectNext, Tick, BlockOn, Leave,
           SuspendTask, ResumeTask, CanDispatch, Objects, T;
      ghost var k := State();
      ghost var n := Next(k, step).0;
      StateIsAsIn({});
      MutexesOfInv(k);
      StaysApart();
      assert allocated(Objects());
      out := Nothing;
      match step {
        case Switch => sched.SelectNextTask();
        case SysTick => sched.SysTick();
        case Suspend(t) => sched.Suspend(t);
        case Resume(t) => sched.Resume(t);
        case Delay(ticks) =>
          if ticks > 0 {
            CallerFacts(k);
            sched.TaskIs(sched.currentTcb.value);
            sched.BlockOnCall(sched.currentTcb.value, Delaying(ticks));
            out := Waits;
          }
        case DelayReturn =>
          CallerFacts(k);
          sched.LeaveCall(sched.currentTcb.value);
      }
      OnlyScheduler(k, step);
      SchedulerMoves(k, n);
    }

    lemma SchedulerMoves(k: Kernel, n: Kernel)
      requires AsIn(k, {}) && n == k.(s := n.s) && sched.State() == n.s
      ensures State() == n
    {
      hide SchedulerState.State, State;
      IsAsIn(n);
    }

    /** More nodes on the scheduler's side leave the objects apart. */
    lemma ApartFrom(repr: set<object>, more: set<object>)
      requires Apart(repr) && more !! Objects() && this !in more
      ensures Apart(more)
    {}

    method NewTask(t: Tid, prio: nat) returns (out: Out)
      requires Valid() && Inv(State()) && Enabled(State(), Create(t, prio))
      modifies sched.Repr()
      ensures Valid() && fresh(sched.Repr() - old(sched.Repr())) && Fields() == old(Fields())
      ensures State() == Next(old(State()), Create(t, prio)).0 && out == Next(old(State()), Create(t, prio)).1
    {
      hide SchedulerState.Valid, SchedulerState.Repr, Inv, Apart, Listed, State, AsIn, CreateTask, Objects;
      ghost var k := State();
      ghost var repr := sched.Repr();
      StateIsAsIn({});
      StaysApart();
      assert allocated(Objects()) && allocated(this);
      var status := sched.Create(t, prio);
      assert forall o :: o in sched.Repr() && o !in repr ==> fresh(o);
      ApartFrom(repr, sched.Repr());
      OnlyScheduler(k, Create(t, prio));
      SchedulerMoves(k, Next(k, Create(t, prio)).0);
      return Returns(status);
    }

    /** Any step of the kernel: it is the kernel's step, and it keeps the contract of that step. */
    method Perform(step: Step) returns (out: Out)
      requires Valid() && Inv(State()) && Enabled(State(), step)
      modifies sched.Repr(), Objects()
      ensures Valid() && fresh(sched.Repr() - old(sched.Repr())) && Fields() == old(Fields())
      ensures State() == Next(old(State()), step).0 && out == Next(old(State()), step).1
      ensures QueuesOk(old(State())) && Contract(old(State()), step, State(), out)
    {
      hide Valid, State, Inv, Enabled, Next, Objects, Contract, QueuesOk, SchedulerState.Valid;
      EveryStepMeets(State(), step);
      if step.Create? { out := NewTask(step.t, step.prio); }
      else if CallsMutex(step) { out := OnMutex(step); }
      else if CallsSemaphore(step) { out := OnSemaphore(step); }
      else if CallsQueue(step) { out := OnQueue(step); }
      else { out := OnScheduler(step); }
    }

    /** Any run of the kernel: the objects end in the state of the run, and return what its steps return. */
    method PerformAll(steps: seq<Step>) returns (outs: seq<Out>)
      requires Valid() && Inv(State()) && Legal(State(), steps)
      modifies sched.Repr(), Objects()
      ensures Valid() && fresh(sched.Repr() - old(sched.Repr())) && Fields() == old(Fields())
      ensures State() == Run(old(State()), steps) && Inv(State()) && outs == Outs(old(State()), steps)
    {
      hide Valid, State, Inv, Enabled, Next, SchedulerState.Valid, Legal, Run, Outs;
      ghost var k := State();
      outs := [];
      for i := 0 to |steps|
        invariant Valid() && Inv(State()) && fresh(sched.Repr() - old(sched.Repr())) && Fields() == old(Fields())
        invariant Legal(State(), steps[i..]) && Run(State(), steps[i..]) == Run(k, steps)
        invariant outs + Outs(State(), steps[i..]) == Outs(k, steps)
      {
        ghost var u := State();
        FirstStep(u, steps[i..]);
        NextKeeps(u, steps[i]);
        var out := Perform(steps[i]);
        assert steps[i..][1..] == steps[i + 1..];
        outs := outs + [out];
      }
      NoSteps(State());
    }

    /** No call makes or takes away an object or a node. */
    ghost predicate Framed(shape: (map<LinkList, IntrusiveList.Node>, map<nat, IntrusiveList.Node>,
                                   map<WaitList, IntrusiveList.Node>, map<nat, IntrusiveList.Node>, set<object>),
                           fields: (map<nat, MutexObject>, map<nat, SemaphoreObject>, map<nat, QueueObject>))
      reads this, sched, sched.links, sched.events
    {
      sched.Shape() == shape && Fields() == fields
    }

    ghost function Fields(): (map<nat, MutexObject>, map<nat, SemaphoreObject>, map<nat, QueueObject>)
      reads this
    {
      (mutexes, sems, queues)
    }
  }

  lemma OnlyScheduler(k: Kernel, step: Step)
    requires Enabled(k, step) && CallsTask(step)
    ensures var u := Next(k, step).0; u == k.(s := u.s)
  {}

  /** A step on a mutex changes the scheduler and that mutex. */
  lemma OneMutex(k: Kernel, step: Step)
    requires Enabled(k, step) && CallsMutex(step)
    ensures step.m in k.mutexes && step.m in Next(k, step).0.mutexes
    ensures var u := Next(k, step).0;
      u == k.(s := u.s, mutexes := k.mutexes[step.m := u.mutexes[step.m]])
    ensures step.Lock? ==> Next(k, step) == MutexLock(k, step.m, step.timeout)
    ensures step.LockReturn? ==> Next(k, step) == MutexLockReturn(k, step.m)
    ensures step.Unlock? ==> Next(k, step) == MutexUnlock(k, step.m)
  {
    hide BlockOn, Leave, WakeWaiter, T;
    assert k.mutexes == k.mutexes[step.m := k.mutexes[step.m]];
  }

  lemma OneSemaphore(k: Kernel, step: Step)
    requires Enabled(k, step) && CallsSemaphore(step)
    ensures step.sem in k.sems && step.sem in Next(k, step).0.sems
    ensures var u := Next(k, step).0;
      u == k.(s := u.s, sems := k.sems[step.sem := u.sems[step.sem]])
    ensures step.Take? ==> Next(k, step) == SemTake(k, step.sem, step.timeout)
    ensures step.TakeReturn? ==> Next(k, step) == SemTakeReturn(k)
    ensures step.Give? || step.GiveFromIsr? ==> Next(k, step) == SemGive(k, step.sem)
  {
    hide BlockOn, Leave, WakeWaiter, T;
    assert k.sems == k.sems[step.sem := k.sems[step.sem]];
  }

  lemma OneQueue(k: Kernel, step: Step)
    requires Enabled(k, step) && CallsQueue(step)
    ensures step.q in k.queues && step.q in Next(k, step).0.queues
    ensures var u := Next(k, step).0;
      u == k.(s := u.s, queues := k.queues[step.q := u.queues[step.q]])
    ensures step.Send? ==> Next(k, step) == QueueSend(k, step.q, step.item, step.timeout)
    ensures step.SendFromIsr? ==> Next(k, step) == QueueSendFromIsr(k, step.q, step.item)
    ensures step.Receive? ==> Next(k, step) == QueueReceive(k, step.q, step.timeout)
    ensures step.ReceiveReturn? ==> Next(k, step) == QueueReceiveReturn(k, step.q)
  {
    hide BlockOn, Leave, WakeWaiter, CopyIn, CopyOut, T;
    assert k.queues == k.queues[step.q := k.queues[step.q]];
  }
}

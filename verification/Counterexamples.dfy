/**
 * Runs, state by state, that show where the kernel falls short: why the discipline is needed for dispatch to be
 * safe and for inheritance to be exact, and promises of the documentation that the code does not keep.
 */
module Counterexamples {
  import opened Base
  import opened Sequences
  import opened Scheduler
  import Bitmap
  import opened Evolution
  import opened Kernel
  import opened Invariants
  import opened Inheritance

  const F := WAIT_FOREVER
  const M0 := MutexWaiters(0)
  const R0 := Receivers(0)
  const S0 := Senders(0)
  const C0 := SemWaiters(0)

  // ---- notation --------------------------------------------------------------------------

  /** A task in no call that has never waited: READY on the list of `level`, or RUNNING. */
  function Rdy(base: nat, prio: nat, level: nat): Tcb {
    Tcb(prio, base, Ready, OnReady(level), None, 0, OK, NoCall, 0, 0)
  }
  function Runs(base: nat, prio: nat): Tcb { Tcb(prio, base, Running, Off, None, 0, OK, NoCall, 0, 0) }

  /** A kernel with one mutex, with a semaphore beside it, or with one queue of capacity 1. */
  function MK(s: Sched, owner: Option<Tid>): Kernel {
    Kernel(s, map[0 := Mutex(owner, if owner.Some? then 1 else 0)], map[], map[])
  }
  function SK(s: Sched, owner: Option<Tid>): Kernel { MK(s, owner).(sems := map[0 := Semaphore(0, 1)]) }
  function QK(s: Sched, item: Item, count: nat): Kernel {
    Kernel(s, map[], map[], map[0 := Queue([item], 0, 0, count)])
  }

  predicate Goes(k: Kernel, step: Step, u: Kernel) {
    Enabled(k, step) && Next(k, step).0 == u
  }

  predicate Behaves(k: Kernel, step: Step, rules: Rules) { Enabled(k, step) && Disciplined(k, step, rules) }

  /** A step and a run from where it leads make a run. */
  lemma Then(k: Kernel, step: Step, u: Kernel, rest: seq<Step>, rules: Rules)
    requires Goes(k, step, u) && Legal(u, rest)
    ensures Legal(k, [step] + rest) && Run(k, [step] + rest) == Run(u, rest)
    ensures Behaves(k, step, rules) && DisciplinedRun(u, rest, rules) ==> DisciplinedRun(k, [step] + rest, rules)
  {
    assert ([step] + rest)[1..] == rest;
    hide Enabled, Next, T, HoldsNone;
  }

  lemma {:induction false} ThenRun(k: Kernel, a: seq<Step>, b: seq<Step>, rules: Rules)
    requires Legal(k, a) && Legal(Run(k, a), b)
    ensures Legal(k, a + b) && Run(k, a + b) == Run(Run(k, a), b)
    ensures DisciplinedRun(k, a, rules) && DisciplinedRun(Run(k, a), b, rules) ==> DisciplinedRun(k, a + b, rules)
    decreases |a|
  {
    hide Enabled, Next, Disciplined;
    if a == [] { assert a + b == b; } else {
      assert (a + b)[0] == a[0] && (a + b)[1..] == a[1..] + b;
      ThenRun(Next(k, a[0]).0, a[1..], b, rules);
    }
  }

  lemma Ends(k: Kernel, rules: Rules)
    ensures Legal(k, []) && Run(k, []) == k && DisciplinedRun(k, [], rules)
  {}

  lemma TopIs(s: Sched, n: nat)
    requires n in s.bits && n < 32 && forall l :: l in s.bits ==> l <= n
    ensures TopLevel(s) == n
  {}

  /** A switch to the first task of the top list. */
  lemma SwitchesTo(s: Sched, v: Sched, n: nat, t: Tid)
    requires v == Requeued(s) && TopLevel(v) == n && v.bits != {} && t in v.tasks && T(v, t).link == OnReady(n)
    requires R(v, n) != [] && R(v, n)[0] == t
    ensures CanDispatch(s)
    ensures var ready, p := v.ready[n := R(v, n)[1..]], T(v, t).prio;
      SelectNext(s) == v.(
        tasks := v.tasks[t := T(v, t).(link := Off, state := Running)], ready := ready, cur := Some(t),
        bits := if p !in ready || ready[p] == [] then v.bits - {p} else v.bits)
  {
    hide TopLevel, Requeued;
    WithoutHead(R(v, n));
    var u := SelectNext(s);
    assert u.tasks == v.tasks[t := T(v, t).(link := Off, state := Running)];
  }

  /** The running task goes to the tail of its list before a switch. */
  lemma Requeues(s: Sched, t: Tid)
    requires s.cur == Some(t) && t in s.tasks && T(s, t).state == Running
    ensures var p := T(s, t).prio;
      Requeued(s) == s.(tasks := s.tasks[t := T(s, t).(state := Ready, link := OnReady(p))],
                        ready := s.ready[p := R(s, p) + [t]], bits := s.bits + {p})
  {}

  lemma NotRequeued(s: Sched)
    requires s.cur == None || T(s, s.cur.value).state != Running
    ensures Requeued(s) == s
  {}

  lemma Creates(s: Sched, t: Tid, prio: nat)
    requires t !in s.tasks
    ensures CreateTask(s, t, prio) == s.(tasks := s.tasks[t := Rdy(prio, prio, prio)],
                                         ready := s.ready[prio := R(s, prio) + [t]], bits := s.bits + {prio})
  {
    var u := CreateTask(s, t, prio);
    assert u.tasks == s.tasks[t := Rdy(prio, prio, prio)];
  }

  lemma BoostIs(s: Sched, o: Tid, p: nat)
    requires T(s, o).prio < p
    ensures Boost(s, o, p) == s.(tasks := s.tasks[o := T(s, o).(prio := p)])
  {}

  /** A task blocks in a call with no wait list, or is the first on it. */
  lemma BlocksFirst(s: Sched, t: Tid, call: Call)
    requires t in s.tasks && T(s, t).link == Off && T(s, t).event == None && InKernel(call)
    requires WaitsOn(call).Some? ==> W(s, WaitsOn(call).value) == []
    ensures var c, w, p := T(s, t), WaitsOn(call), T(s, t).prio;
      BlockOn(s, t, call) == s.(
        tasks := s.tasks[t := c.(state := Blocked, link := if Timed(call) then OnDelayed else Off, event := w,
                                 wake := if Timed(call) then (s.tick + Ticks(call)) % U32 else c.wake, call := call,
                                 answers := 0, arrived := if w.Some? then s.arrivals else c.arrived)],
        waits := if w.Some? then s.waits[w.value := [t]] else s.waits,
        arrivals := if w.Some? then s.arrivals + 1 else s.arrivals,
        delayed := if Timed(call) then s.delayed + [t] else s.delayed,
        bits := if R(s, p) == [] then s.bits - {p} else s.bits)
  {
    hide InsertWaiter;
    InsertsFirst(s, t);
    var u, c, w := BlockOn(s, t, call), T(s, t), WaitsOn(call);
    assert u.tasks
      == s.tasks[t := c.(state := Blocked, link := if Timed(call) then OnDelayed else Off, event := w,
                         wake := if Timed(call) then (s.tick + Ticks(call)) % U32 else c.wake, call := call,
                         answers := 0, arrived := if w.Some? then s.arrivals else c.arrived)];
  }

  /** A task blocks for ever in a call on whose wait list a task of lower priority stands alone. */
  lemma BlocksAhead(s: Sched, t: Tid, call: Call, x: Tid)
    requires t in s.tasks && T(s, t).link == Off && T(s, t).event == None && InKernel(call) && !Timed(call)
    requires WaitsOn(call).Some? && W(s, WaitsOn(call).value) == [x] && x != t && T(s, x).prio < T(s, t).prio
    ensures var c, w, p := T(s, t), WaitsOn(call), T(s, t).prio;
      BlockOn(s, t, call) == s.(
        tasks := s.tasks[t := c.(state := Blocked, link := Off, event := w, call := call, answers := 0,
                                 arrived := s.arrivals)],
        waits := s.waits[w.value := [t, x]], arrivals := s.arrivals + 1,
        bits := if R(s, p) == [] then s.bits - {p} else s.bits)
  {
    hide InsertWaiter;
    InsertsAhead(s, t, x);
    var u, c, w := BlockOn(s, t, call), T(s, t), WaitsOn(call);
    assert u.tasks
      == s.tasks[t := c.(state := Blocked, link := Off, event := w, call := call, answers := 0, arrived := s.arrivals)];
  }

  lemma InsertsAhead(s: Sched, t: Tid, x: Tid)
    requires T(s, x).prio < T(s, t).prio
    ensures InsertWaiter(s, [x], t) == [t, x]
  {
    assert Keys(s, [x])[0] == T(s, x).prio;
    assert [x][..0] + [t] + [x][0..] == [t, x];
  }

  /** The only waiter of `w` is woken. */
  lemma OneWakes(s: Sched, w: WaitList, t: Tid, answer: Status)
    requires t in s.tasks && T(s, t).event == Some(w) && W(s, w) == [t] && !T(s, t).link.OnReady?
    requires T(s, t).link == OnDelayed ==> s.delayed == [t]
    ensures var c, p := T(s, t), T(s, t).prio;
      MakeReady(s, t, answer) == s.(
        tasks := s.tasks[t := c.(state := Ready, link := OnReady(p), event := None, result := answer,
            answers := c.answers + 1)],
        ready := s.ready[p := R(s, p) + [t]], bits := s.bits + {p}, waits := s.waits[w := []],
        delayed := if c.link == OnDelayed then [] else s.delayed)
  {
    Lists(t, t);
    var c, p, u := T(s, t), T(s, t).prio, MakeReady(s, t, answer);
    assert u.tasks
      == s.tasks[t := c.(state := Ready, link := OnReady(p), event := None, result := answer,
          answers := c.answers + 1)];
  }

  lemma OneExpires(s: Sched, t: Tid)
    requires s.delayed == [t] && Due(Advanced(s), t)
    ensures Tick(s) == MakeReady(Advanced(s), t, Timeout)
  {
    hide MakeReady, Due;
    assert [t][1..] == [];
    assert ExpireAll(ExpireHead(Advanced(s), t), []) == MakeReady(Advanced(s), t, Timeout);
  }

  lemma UnlocksTo(k: Kernel, t: Tid)
    requires 0 in k.mutexes && k.mutexes[0] == Mutex(Some(Self(k)), 1) && W(Restore(k.s, Self(k)), M0) == [t]
    ensures MutexUnlock(k, 0).1 == Returns(OK)
    ensures MutexUnlock(k, 0).0
            == k.(s := MakeReady(Restore(k.s, Self(k)), t, OK), mutexes := k.mutexes[0 := Mutex(Some(t), 1)])
  {
    OnlyWaiterOf(Restore(k.s, Self(k)), M0, t);
  }

  lemma Sends(k: Kernel, item: Item, t: Tid)
    requires 0 in k.queues && k.queues[0] == Queue([0], 0, 0, 0) && W(k.s, R0) == [t]
    ensures QueueSend(k, 0, item, F).0
            == k.(s := MakeReady(k.s, t, OK), queues := k.queues[0 := Queue([item], 0, 0, 1)])
  {
    OnlyWaiterOf(k.s, R0, t);
    assert [0][0 := item] == [item];
  }

  lemma Lists(a: Tid, b: Tid)
    ensures [] + [a] == [a] && [a] + [b] == [a, b] && [a, b][1..] == [b] && [a][1..] == []
    ensures Without([a], a) == [] && (a != b ==> Without([a, b], a) == [b])
  {}

  lemma InsertsFirst(s: Sched, t: Tid)
    ensures InsertWaiter(s, [], t) == [t]
  {
    assert InsertWaiter(s, [], t)[0] == t;
  }

  lemma OnlyWaiterOf(s: Sched, w: WaitList, t: Tid)
    requires W(s, w) == [t]
    ensures WakeWaiter(s, w) == (MakeReady(s, t, OK), Some(t))
  {}

  lemma C7IsDue()
    ensures Due(Advanced(C7().s), 3)
  {}

  // ---- a task takes the mutex and is preempted -------------------------------------------

  function K0(): Kernel {
    MK(Sched(map[0 := Rdy(0, 0, 0)],
             map[0 := [0]], {0}, [], map[], 0, None, 0), None)
  }

  function K1(): Kernel {
    MK(Sched(map[0 := Rdy(0, 0, 0), 1 := Rdy(1, 1, 1)],
             map[0 := [0], 1 := [1]], {0, 1}, [], map[], 0, None, 0), None)
  }

  lemma K0Creates()
    ensures CreateTask(K0().s, 1, 1) == K1().s
  {
    hide CreateTask; Lists(1, 0); Creates(K0().s, 1, 1);
    var u, v := CreateTask(K0().s, 1, 1), K1().s;
    assert u.tasks == v.tasks && u.ready == v.ready && u.bits == v.bits && u.waits == v.waits;
  }

  lemma K0ToK1()
    ensures Goes(K0(), Create(1, 1), K1())
    ensures forall rules :: Behaves(K0(), Create(1, 1), rules)
  {
    hide CreateTask; K0Creates();
  }

  function K2(): Kernel {
    MK(Sched(map[0 := Rdy(0, 0, 0), 1 := Runs(1, 1)],
             map[0 := [0], 1 := []], {0}, [], map[], 0, Some(1), 0), None)
  }

  lemma K1Switches()
    ensures CanDispatch(K1().s) && SelectNext(K1().s) == K2().s
  {
    hide TopLevel, CanDispatch, SelectNext, W, Requeued; Lists(1, 0); NotRequeued(K1().s); TopIs(K1().s, 1);
    SwitchesTo(K1().s, K1().s, 1, 1);
    var u, v := SelectNext(K1().s), K2().s;
    assert u.tasks == v.tasks && u.ready == v.ready && u.bits == v.bits && u.waits == v.waits;
  }

  lemma K1ToK2()
    ensures Goes(K1(), Switch, K2())
    ensures forall rules :: Behaves(K1(), Switch, rules)
  {
    hide CanDispatch, SelectNext; K1Switches();
  }

  function K3(): Kernel {
    MK(Sched(map[0 := Rdy(0, 0, 0), 1 := Runs(1, 1)],
             map[0 := [0], 1 := []], {0}, [], map[], 0, Some(1), 0), Some(1))
  }

  lemma K2ToK3()
    ensures Goes(K2(), Lock(0, F), K3())
    ensures forall rules :: Behaves(K2(), Lock(0, F), rules)
  {
    var u, v := Next(K2(), Lock(0, F)).0.s, K3().s;
    assert u.tasks == v.tasks && u.ready == v.ready && u.bits == v.bits && u.waits == v.waits;
  }

  function K4(): Kernel {
    MK(Sched(map[0 := Rdy(0, 0, 0), 1 := Runs(1, 1), 3 := Rdy(5, 5, 5)],
             map[0 := [0], 1 := [], 5 := [3]], {0, 5}, [], map[], 0, Some(1), 0), Some(1))
  }

  lemma K3Creates()
    ensures CreateTask(K3().s, 3, 5) == K4().s
  {
    hide CreateTask; Lists(3, 0); Creates(K3().s, 3, 5);
    var u, v := CreateTask(K3().s, 3, 5), K4().s;
    assert u.tasks == v.tasks && u.ready == v.ready && u.bits == v.bits && u.waits == v.waits;
  }

  lemma K3ToK4()
    ensures Goes(K3(), Create(3, 5), K4())
    ensures forall rules :: Behaves(K3(), Create(3, 5), rules)
  {
    hide CreateTask; K3Creates();
  }

  function K5(): Kernel {
    MK(Sched(map[0 := Rdy(0, 0, 0), 1 := Rdy(1, 1, 1), 3 := Runs(5, 5)],
             map[0 := [0], 1 := [1], 5 := []], {0, 1}, [], map[], 0, Some(3), 0), Some(1))
  }

  lemma K4Requeued()
    ensures Requeued(K4().s)
      == Sched(map[0 := Rdy(0, 0, 0), 1 := Rdy(1, 1, 1), 3 := Rdy(5, 5, 5)],
             map[0 := [0], 1 := [1], 5 := [3]], {0, 1, 5}, [], map[], 0, Some(1), 0)
  {
    hide Requeued; Lists(1, 3);
    Requeues(K4().s, 1);
    var u := Requeued(K4().s);
    assert u.bits == {0, 1, 5} && u.ready == map[0 := [0], 1 := [1], 5 := [3]];
  }

  lemma K4Switches()
    ensures CanDispatch(K4().s) && SelectNext(K4().s) == K5().s
  {
    hide TopLevel, CanDispatch, SelectNext, W, Requeued; Lists(3, 0); K4Requeued(); TopIs(Requeued(K4().s), 5);
    SwitchesTo(K4().s, Requeued(K4().s), 5, 3);
    var u, v := SelectNext(K4().s), K5().s;
    assert u.tasks == v.tasks && u.ready == v.ready && u.bits == v.bits && u.waits == v.waits;
  }

  lemma K4ToK5()
    ensures Goes(K4(), Switch, K5())
    ensures forall rules :: Behaves(K4(), Switch, rules)
  {
    hide CanDispatch, SelectNext; K4Switches();
  }

  // ---- the scenario of docs/PRIORITY_INHERITANCE.md --------------------------------------

  function A6(): Kernel {
    MK(Sched(map[0 := Rdy(0, 0, 0), 1 := Rdy(1, 1, 1), 2 := Rdy(3, 3, 3), 3 := Runs(5, 5)],
             map[0 := [0], 1 := [1], 3 := [2], 5 := []], {0, 1, 3}, [], map[], 0, Some(3), 0), Some(1))
  }

  lemma K5Creates()
    ensures CreateTask(K5().s, 2, 3) == A6().s
  {
    hide CreateTask; Lists(2, 0); Creates(K5().s, 2, 3);
    var u, v := CreateTask(K5().s, 2, 3), A6().s;
    assert u.tasks == v.tasks && u.ready == v.ready && u.bits == v.bits && u.waits == v.waits;
  }

  lemma K5ToA6()
    ensures Goes(K5(), Create(2, 3), A6())
    ensures forall rules :: Behaves(K5(), Create(2, 3), rules)
  {
    hide CreateTask; K5Creates();
  }

  function A7(): Kernel {
    MK(Sched(map[0 := Rdy(0, 0, 0), 1 := Rdy(1, 5, 1), 2 := Rdy(3, 3, 3),
              3 := Tcb(5, 5, Blocked, Off, Some(M0), 0, OK, Locking(0, F), 0, 0)],
             map[0 := [0], 1 := [1], 3 := [2], 5 := []], {0, 1, 3}, [], map[M0 := [3]], 0, Some(3), 1), Some(1))
  }

  lemma A6ToA7()
    ensures Goes(A6(), Lock(0, F), A7())
    ensures forall rules :: Behaves(A6(), Lock(0, F), rules)
  {
    hide BlockOn, Boost; BoostIs(A6().s, 1, 5); BlocksFirst(Boost(A6().s, 1, 5), 3, Locking(0, F));
    var u, v := Next(A6(), Lock(0, F)).0.s, A7().s;
    assert u.tasks == v.tasks && u.ready == v.ready && u.bits == v.bits && u.waits == v.waits;
  }

  function A8(): Kernel {
    MK(Sched(map[0 := Rdy(0, 0, 0), 1 := Rdy(1, 5, 1), 2 := Runs(3, 3),
              3 := Tcb(5, 5, Blocked, Off, Some(M0), 0, OK, Locking(0, F), 0, 0)],
             map[0 := [0], 1 := [1], 3 := [], 5 := []], {0, 1}, [], map[M0 := [3]], 0, Some(2), 1), Some(1))
  }

  lemma A7Switches()
    ensures CanDispatch(A7().s) && SelectNext(A7().s) == A8().s
  {
    hide TopLevel, CanDispatch, SelectNext, W, Requeued; Lists(2, 0); NotRequeued(A7().s); TopIs(A7().s, 3);
    SwitchesTo(A7().s, A7().s, 3, 2);
    var u, v := SelectNext(A7().s), A8().s;
    assert u.tasks == v.tasks && u.ready == v.ready && u.bits == v.bits && u.waits == v.waits;
  }

  lemma A7ToA8()
    ensures Goes(A7(), Switch, A8())
    ensures forall rules :: Behaves(A7(), Switch, rules)
  {
    hide CanDispatch, SelectNext; A7Switches();
  }

  // ---- a waiter times out ----------------------------------------------------------------

  function C6(): Kernel {
    MK(Sched(map[0 := Rdy(0, 0, 0), 1 := Rdy(1, 5, 1),
              3 := Tcb(5, 5, Blocked, OnDelayed, Some(M0), 1, OK, Locking(0, 1), 0, 0)],
             map[0 := [0], 1 := [1], 5 := []], {0, 1}, [3], map[M0 := [3]], 0, Some(3), 1), Some(1))
  }

  /** The owner of K5 is boosted. */
  function B5(): Sched {
    Sched(map[0 := Rdy(0, 0, 0), 1 := Rdy(1, 5, 1), 3 := Runs(5, 5)],
          map[0 := [0], 1 := [1], 5 := []], {0, 1}, [], map[], 0, Some(3), 0)
  }

  lemma K5Boosts()
    ensures Boost(K5().s, 1, 5) == B5()
  {
    hide Boost; BoostIs(K5().s, 1, 5);
    assert Boost(K5().s, 1, 5).tasks == B5().tasks;
  }

  lemma B5Blocks()
    ensures BlockOn(B5(), 3, Locking(0, 1)) == C6().s
  {
    hide BlockOn; Lists(3, 0); BlocksFirst(B5(), 3, Locking(0, 1));
    var u, v := BlockOn(B5(), 3, Locking(0, 1)), C6().s;
    assert u.tasks == v.tasks && u.ready == v.ready && u.bits == v.bits && u.waits == v.waits;
  }

  lemma K5ToC6()
    ensures Goes(K5(), Lock(0, 1), C6()) && Behaves(K5(), Lock(0, 1), TimedLocks)
  {
    hide BlockOn, Boost; K5Boosts(); B5Blocks();
  }

  function C7(): Kernel {
    MK(Sched(map[0 := Rdy(0, 0, 0), 1 := Runs(1, 5),
              3 := Tcb(5, 5, Blocked, OnDelayed, Some(M0), 1, OK, Locking(0, 1), 0, 0)],
             map[0 := [0], 1 := [], 5 := []], {0, 1}, [3], map[M0 := [3]], 0, Some(1), 1), Some(1))
  }

  lemma C6Switches()
    ensures CanDispatch(C6().s) && SelectNext(C6().s) == C7().s
  {
    hide TopLevel, CanDispatch, SelectNext, W, Requeued; Lists(1, 0); NotRequeued(C6().s); TopIs(C6().s, 1);
    SwitchesTo(C6().s, C6().s, 1, 1);
    var u, v := SelectNext(C6().s), C7().s;
    assert u.tasks == v.tasks && u.ready == v.ready && u.bits == v.bits && u.waits == v.waits;
  }

  lemma C6ToC7()
    ensures Goes(C6(), Switch, C7()) && Behaves(C6(), Switch, TimedLocks)
  {
    hide CanDispatch, SelectNext; C6Switches();
  }

  function C8(): Kernel {
    MK(Sched(map[0 := Rdy(0, 0, 0), 1 := Runs(1, 5),
              3 := Tcb(5, 5, Ready, OnReady(5), None, 1, Timeout, Locking(0, 1), 1, 0)],
             map[0 := [0], 1 := [], 5 := [3]], {0, 1, 5}, [], map[M0 := []], 1, Some(1), 1), Some(1))
  }

  lemma C7ToC8()
    ensures Goes(C7(), SysTick, C8()) && Behaves(C7(), SysTick, TimedLocks)
  {
    hide Tick, Due, MakeReady; C7IsDue(); Lists(3, 0); OneExpires(C7().s, 3);
    OneWakes(Advanced(C7().s), M0, 3, Timeout);
    var u, v := Next(C7(), SysTick).0.s, C8().s;
    assert u.tasks == v.tasks && u.ready == v.ready && u.bits == v.bits && u.waits == v.waits;
  }

  function C9(): Kernel {
    MK(Sched(map[0 := Rdy(0, 0, 0), 1 := Rdy(1, 5, 5),
              3 := Tcb(5, 5, Running, Off, None, 1, Timeout, Locking(0, 1), 1, 0)],
             map[0 := [0], 1 := [], 5 := [1]], {0, 1, 5}, [], map[M0 := []], 1, Some(3), 1), Some(1))
  }

  lemma C8Requeued()
    ensures Requeued(C8().s)
      == Sched(map[0 := Rdy(0, 0, 0), 1 := Rdy(1, 5, 5),
              3 := Tcb(5, 5, Ready, OnReady(5), None, 1, Timeout, Locking(0, 1), 1, 0)],
             map[0 := [0], 1 := [], 5 := [3, 1]], {0, 1, 5}, [], map[M0 := []], 1, Some(1), 1)
  {
    hide Requeued; Lists(3, 1);
    Requeues(C8().s, 1);
    var u := Requeued(C8().s);
    assert u.bits == {0, 1, 5} && u.ready == map[0 := [0], 1 := [], 5 := [3, 1]];
  }

  lemma C8Switches()
    ensures CanDispatch(C8().s) && SelectNext(C8().s) == C9().s
  {
    hide TopLevel, CanDispatch, SelectNext, W, Requeued; Lists(3, 0); C8Requeued(); TopIs(Requeued(C8().s), 5);
    SwitchesTo(C8().s, Requeued(C8().s), 5, 3);
    var u, v := SelectNext(C8().s), C9().s;
    assert u.tasks == v.tasks && u.ready == v.ready && u.bits == v.bits && u.waits == v.waits;
  }

  lemma C8ToC9()
    ensures Goes(C8(), Switch, C9()) && Behaves(C8(), Switch, TimedLocks)
  {
    hide CanDispatch, SelectNext; C8Switches();
  }

  function C10(): Kernel {
    MK(Sched(map[0 := Rdy(0, 0, 0), 1 := Rdy(1, 5, 5),
              3 := Tcb(5, 5, Running, Off, None, 1, Timeout, NoCall, 0, 0)],
             map[0 := [0], 1 := [], 5 := [1]], {0, 1, 5}, [], map[M0 := []], 1, Some(3), 1), Some(1))
  }

  lemma C9ToC10()
    ensures Goes(C9(), LockReturn(0), C10()) && Behaves(C9(), LockReturn(0), TimedLocks)
  {
    var u, v := Next(C9(), LockReturn(0)).0.s, C10().s;
    assert u.tasks == v.tasks && u.ready == v.ready && u.bits == v.bits && u.waits == v.waits;
  }

  function C11(): Kernel {
    MK(Sched(map[0 := Rdy(0, 0, 0), 1 := Rdy(1, 5, 5), 2 := Rdy(7, 7, 7),
              3 := Tcb(5, 5, Running, Off, None, 1, Timeout, NoCall, 0, 0)],
             map[0 := [0], 1 := [], 5 := [1], 7 := [2]], {0, 1, 5, 7}, [], map[M0 := []], 1, Some(3), 1), Some(1))
  }

  lemma C10Creates()
    ensures CreateTask(C10().s, 2, 7) == C11().s
  {
    hide CreateTask; Lists(2, 0); Creates(C10().s, 2, 7);
    var u, v := CreateTask(C10().s, 2, 7), C11().s;
    assert u.tasks == v.tasks && u.ready == v.ready && u.bits == v.bits && u.waits == v.waits;
  }

  lemma C10ToC11()
    ensures Goes(C10(), Create(2, 7), C11()) && Behaves(C10(), Create(2, 7), TimedLocks)
  {
    hide CreateTask; C10Creates();
  }

  function C12(): Kernel {
    MK(Sched(map[0 := Rdy(0, 0, 0), 1 := Rdy(1, 5, 5), 2 := Rdy(7, 7, 7),
              3 := Tcb(5, 5, Blocked, OnDelayed, None, 101, Timeout, Delaying(100), 0, 0)],
             map[0 := [0], 1 := [], 5 := [1], 7 := [2]], {0, 1, 5, 7}, [3], map[M0 := []], 1, Some(3), 1), Some(1))
  }

  lemma C11Delays()
    ensures BlockOn(C11().s, 3, Delaying(100)) == C12().s
  {
    hide BlockOn; Lists(3, 0); BlocksFirst(C11().s, 3, Delaying(100));
    var u, v := BlockOn(C11().s, 3, Delaying(100)), C12().s;
    assert u.tasks == v.tasks && u.ready == v.ready && u.bits == v.bits && u.waits == v.waits;
  }

  lemma C11ToC12()
    ensures Goes(C11(), Delay(100), C12()) && Behaves(C11(), Delay(100), TimedLocks)
  {
    hide BlockOn; C11Delays();
  }

  function C13(): Kernel {
    MK(Sched(map[0 := Rdy(0, 0, 0), 1 := Rdy(1, 5, 5), 2 := Runs(7, 7),
              3 := Tcb(5, 5, Blocked, OnDelayed, None, 101, Timeout, Delaying(100), 0, 0)],
             map[0 := [0], 1 := [], 5 := [1], 7 := []], {0, 1, 5}, [3], map[M0 := []], 1, Some(2), 1), Some(1))
  }

  lemma C12Switches()
    ensures CanDispatch(C12().s) && SelectNext(C12().s) == C13().s
  {
    hide TopLevel, CanDispatch, SelectNext, W, Requeued; Lists(2, 0); NotRequeued(C12().s); TopIs(C12().s, 7);
    SwitchesTo(C12().s, C12().s, 7, 2);
    var u, v := SelectNext(C12().s), C13().s;
    assert u.tasks == v.tasks && u.ready == v.ready && u.bits == v.bits && u.waits == v.waits;
  }

  lemma C12ToC13()
    ensures Goes(C12(), Switch, C13()) && Behaves(C12(), Switch, TimedLocks)
  {
    hide CanDispatch, SelectNext; C12Switches();
  }

  function C14(): Kernel {
    MK(Sched(map[0 := Rdy(0, 0, 0), 1 := Rdy(1, 7, 5),
              2 := Tcb(7, 7, Blocked, Off, Some(M0), 0, OK, Locking(0, F), 0, 1),
              3 := Tcb(5, 5, Blocked, OnDelayed, None, 101, Timeout, Delaying(100), 0, 0)],
             map[0 := [0], 1 := [], 5 := [1], 7 := []], {0, 1, 5}, [3], map[M0 := [2]], 1, Some(2), 2), Some(1))
  }

  lemma C13ToC14()
    ensures Goes(C13(), Lock(0, F), C14()) && Behaves(C13(), Lock(0, F), TimedLocks)
  {
    hide BlockOn, Boost; BoostIs(C13().s, 1, 7); BlocksFirst(Boost(C13().s, 1, 7), 2, Locking(0, F));
    var u, v := Next(C13(), Lock(0, F)).0.s, C14().s;
    assert u.tasks == v.tasks && u.ready == v.ready && u.bits == v.bits && u.waits == v.waits;
  }

  function C15(): Kernel {
    MK(Sched(map[0 := Rdy(0, 0, 0), 1 := Runs(1, 7),
              2 := Tcb(7, 7, Blocked, Off, Some(M0), 0, OK, Locking(0, F), 0, 1),
              3 := Tcb(5, 5, Blocked, OnDelayed, None, 101, Timeout, Delaying(100), 0, 0)],
             map[0 := [0], 1 := [], 5 := [], 7 := []], {0, 1, 5}, [3], map[M0 := [2]], 1, Some(1), 2), Some(1))
  }

  lemma C14Switches()
    ensures CanDispatch(C14().s) && SelectNext(C14().s) == C15().s
  {
    hide TopLevel, CanDispatch, SelectNext, W, Requeued; Lists(1, 0); NotRequeued(C14().s); TopIs(C14().s, 5);
    SwitchesTo(C14().s, C14().s, 5, 1);
    var u, v := SelectNext(C14().s), C15().s;
    assert u.tasks == v.tasks && u.ready == v.ready && u.bits == v.bits && u.waits == v.waits;
  }

  lemma C14ToC15()
    ensures Goes(C14(), Switch, C15()) && Behaves(C14(), Switch, TimedLocks)
  {
    hide CanDispatch, SelectNext; C14Switches();
  }

  function C16(): Kernel {
    MK(Sched(map[0 := Rdy(0, 0, 0), 1 := Runs(1, 1),
              2 := Tcb(7, 7, Ready, OnReady(7), None, 0, OK, Locking(0, F), 1, 1),
              3 := Tcb(5, 5, Blocked, OnDelayed, None, 101, Timeout, Delaying(100), 0, 0)],
             map[0 := [0], 1 := [], 5 := [], 7 := [2]], {0, 1, 5, 7}, [3], map[M0 := []], 1, Some(1), 2), Some(2))
  }

  lemma C15Wakes()
    ensures MakeReady(Restore(C15().s, 1), 2, OK) == C16().s
  {
    hide MakeReady; Lists(2, 0); OneWakes(Restore(C15().s, 1), M0, 2, OK);
    var u, v := MakeReady(Restore(C15().s, 1), 2, OK), C16().s;
    assert u.tasks == v.tasks && u.ready == v.ready && u.bits == v.bits && u.waits == v.waits;
  }

  lemma C15ToC16()
    ensures Goes(C15(), Unlock(0), C16()) && Behaves(C15(), Unlock(0), TimedLocks)
  {
    hide MutexUnlock, WakeWaiter, MakeReady;
    C15Wakes();
    UnlocksTo(C15(), 2);
  }

  function C17(): Kernel {
    MK(Sched(map[0 := Rdy(0, 0, 0), 1 := Rdy(1, 1, 1),
              2 := Tcb(7, 7, Running, Off, None, 0, OK, Locking(0, F), 1, 1),
              3 := Tcb(5, 5, Blocked, OnDelayed, None, 101, Timeout, Delaying(100), 0, 0)],
             map[0 := [0], 1 := [1], 5 := [], 7 := []], {0, 1, 5}, [3], map[M0 := []], 1, Some(2), 2), Some(2))
  }

  lemma C16Requeued()
    ensures Requeued(C16().s)
      == Sched(map[0 := Rdy(0, 0, 0), 1 := Rdy(1, 1, 1),
              2 := Tcb(7, 7, Ready, OnReady(7), None, 0, OK, Locking(0, F), 1, 1),
              3 := Tcb(5, 5, Blocked, OnDelayed, None, 101, Timeout, Delaying(100), 0, 0)],
             map[0 := [0], 1 := [1], 5 := [], 7 := [2]], {0, 1, 5, 7}, [3], map[M0 := []], 1, Some(1), 2)
  {
    hide Requeued; Lists(1, 2);
    Requeues(C16().s, 1);
    var u := Requeued(C16().s);
    assert u.bits == {0, 1, 5, 7} && u.ready == map[0 := [0], 1 := [1], 5 := [], 7 := [2]];
  }

  lemma C16Switches()
    ensures CanDispatch(C16().s) && SelectNext(C16().s) == C17().s
  {
    hide TopLevel, CanDispatch, SelectNext, W, Requeued; Lists(2, 0); C16Requeued(); TopIs(Requeued(C16().s), 7);
    SwitchesTo(C16().s, Requeued(C16().s), 7, 2);
    var u, v := SelectNext(C16().s), C17().s;
    assert u.tasks == v.tasks && u.ready == v.ready && u.bits == v.bits && u.waits == v.waits;
  }

  lemma C16ToC17()
    ensures Goes(C16(), Switch, C17()) && Behaves(C16(), Switch, TimedLocks)
  {
    hide CanDispatch, SelectNext; C16Switches();
  }

  function C18(): Kernel {
    MK(Sched(map[0 := Rdy(0, 0, 0), 1 := Rdy(1, 1, 1), 2 := Tcb(7, 7, Running, Off, None, 0, OK, NoCall, 0, 1),
              3 := Tcb(5, 5, Blocked, OnDelayed, None, 101, Timeout, Delaying(100), 0, 0)],
             map[0 := [0], 1 := [1], 5 := [], 7 := []], {0, 1, 5}, [3], map[M0 := []], 1, Some(2), 2), Some(2))
  }

  lemma C17ToC18()
    ensures Goes(C17(), LockReturn(0), C18()) && Behaves(C17(), LockReturn(0), TimedLocks)
  {
    var u, v := Next(C17(), LockReturn(0)).0.s, C18().s;
    assert u.tasks == v.tasks && u.ready == v.ready && u.bits == v.bits && u.waits == v.waits;
  }

  function C19(): Kernel {
    MK(Sched(map[0 := Rdy(0, 0, 0), 1 := Rdy(1, 1, 1), 2 := Tcb(7, 7, Running, Off, None, 0, OK, NoCall, 0, 1),
              3 := Tcb(5, 5, Blocked, OnDelayed, None, 101, Timeout, Delaying(100), 0, 0)],
             map[0 := [0], 1 := [1], 5 := [], 7 := []], {0, 1, 5}, [3], map[M0 := []], 1, Some(2), 2), None)
  }

  lemma C18ToC19()
    ensures Goes(C18(), Unlock(0), C19()) && Behaves(C18(), Unlock(0), TimedLocks)
  {
    var u, v := Next(C18(), Unlock(0)).0.s, C19().s;
    assert u.tasks == v.tasks && u.ready == v.ready && u.bits == v.bits && u.waits == v.waits;
  }

  function C20(): Kernel {
    MK(Sched(map[0 := Rdy(0, 0, 0), 1 := Rdy(1, 1, 1),
              2 := Tcb(7, 7, Blocked, OnDelayed, None, 51, OK, Delaying(50), 0, 1),
              3 := Tcb(5, 5, Blocked, OnDelayed, None, 101, Timeout, Delaying(100), 0, 0)],
             map[0 := [0], 1 := [1], 5 := [], 7 := []], {0, 1, 5}, [3, 2], map[M0 := []], 1, Some(2), 2), None)
  }

  lemma C19Behaves()
    ensures Behaves(C19(), Delay(50), TimedLocks)
  {
    hide BlockOn, W;
  }

  lemma C19Delays()
    ensures BlockOn(C19().s, 2, Delaying(50)) == C20().s
  {
    hide BlockOn; Lists(3, 2); BlocksFirst(C19().s, 2, Delaying(50));
    var u, v := BlockOn(C19().s, 2, Delaying(50)), C20().s;
    assert u.tasks == v.tasks && u.ready == v.ready && u.bits == v.bits && u.waits == v.waits;
  }

  lemma C19ToC20()
    ensures Goes(C19(), Delay(50), C20()) && Behaves(C19(), Delay(50), TimedLocks)
  {
    hide BlockOn, Behaves; C19Behaves(); C19Delays();
  }

  // ---- a task suspends itself ------------------------------------------------------------

  function G6(): Kernel {
    MK(Sched(map[0 := Rdy(0, 0, 0), 1 := Rdy(1, 5, 1),
              3 := Tcb(5, 5, Blocked, Off, Some(M0), 0, OK, Locking(0, F), 0, 0)],
             map[0 := [0], 1 := [1], 5 := []], {0, 1}, [], map[M0 := [3]], 0, Some(3), 1), Some(1))
  }

  lemma K5ToG6()
    ensures Goes(K5(), Lock(0, F), G6()) && Behaves(K5(), Lock(0, F), PatientLocks)
  {
    hide BlockOn, Boost; K5Boosts(); BlocksFirst(B5(), 3, Locking(0, F));
    var u, v := Next(K5(), Lock(0, F)).0.s, G6().s;
    assert u.tasks == v.tasks && u.ready == v.ready && u.bits == v.bits && u.waits == v.waits;
  }

  function G7(): Kernel {
    MK(Sched(map[0 := Rdy(0, 0, 0), 1 := Runs(1, 5),
              3 := Tcb(5, 5, Blocked, Off, Some(M0), 0, OK, Locking(0, F), 0, 0)],
             map[0 := [0], 1 := [], 5 := []], {0, 1}, [], map[M0 := [3]], 0, Some(1), 1), Some(1))
  }

  lemma G6Switches()
    ensures CanDispatch(G6().s) && SelectNext(G6().s) == G7().s
  {
    hide TopLevel, CanDispatch, SelectNext, W, Requeued; Lists(1, 0); NotRequeued(G6().s); TopIs(G6().s, 1);
    SwitchesTo(G6().s, G6().s, 1, 1);
    var u, v := SelectNext(G6().s), G7().s;
    assert u.tasks == v.tasks && u.ready == v.ready && u.bits == v.bits && u.waits == v.waits;
  }

  lemma G6ToG7()
    ensures Goes(G6(), Switch, G7()) && Behaves(G6(), Switch, PatientLocks)
  {
    hide CanDispatch, SelectNext; G6Switches();
  }

  function G8(): Kernel {
    MK(Sched(map[0 := Rdy(0, 0, 0), 1 := Runs(1, 1),
              3 := Tcb(5, 5, Ready, OnReady(5), None, 0, OK, Locking(0, F), 1, 0)],
             map[0 := [0], 1 := [], 5 := [3]], {0, 1, 5}, [], map[M0 := []], 0, Some(1), 1), Some(3))
  }

  lemma G7Wakes()
    ensures MakeReady(Restore(G7().s, 1), 3, OK) == G8().s
  {
    hide MakeReady; Lists(3, 0); OneWakes(Restore(G7().s, 1), M0, 3, OK);
    var u, v := MakeReady(Restore(G7().s, 1), 3, OK), G8().s;
    assert u.tasks == v.tasks && u.ready == v.ready && u.bits == v.bits && u.waits == v.waits;
  }

  lemma G7ToG8()
    ensures Goes(G7(), Unlock(0), G8()) && Behaves(G7(), Unlock(0), PatientLocks)
  {
    hide MutexUnlock, MakeReady, WakeWaiter;
    G7Wakes();
    UnlocksTo(G7(), 3);
  }

  function G9(): Kernel {
    MK(Sched(map[0 := Rdy(0, 0, 0), 1 := Tcb(1, 1, Suspended, Off, None, 0, OK, NoCall, 0, 0),
              3 := Tcb(5, 5, Ready, OnReady(5), None, 0, OK, Locking(0, F), 1, 0)],
             map[0 := [0], 1 := [], 5 := [3]], {0, 1, 5}, [], map[M0 := []], 0, Some(1), 1), Some(3))
  }

  lemma G8ToG9()
    ensures Goes(G8(), Suspend(1), G9()) && Behaves(G8(), Suspend(1), PatientLocks)
  {
    var u, v := Next(G8(), Suspend(1)).0.s, G9().s;
    assert u.tasks == v.tasks && u.ready == v.ready && u.bits == v.bits && u.waits == v.waits;
  }

  function G10(): Kernel {
    MK(Sched(map[0 := Rdy(0, 0, 0), 1 := Tcb(1, 1, Suspended, Off, None, 0, OK, NoCall, 0, 0),
              3 := Tcb(5, 5, Running, Off, None, 0, OK, Locking(0, F), 1, 0)],
             map[0 := [0], 1 := [], 5 := []], {0, 1}, [], map[M0 := []], 0, Some(3), 1), Some(3))
  }

  lemma G9Switches()
    ensures CanDispatch(G9().s) && SelectNext(G9().s) == G10().s
  {
    hide TopLevel, CanDispatch, SelectNext, W, Requeued; Lists(3, 0); NotRequeued(G9().s); TopIs(G9().s, 5);
    SwitchesTo(G9().s, G9().s, 5, 3);
    var u, v := SelectNext(G9().s), G10().s;
    assert u.tasks == v.tasks && u.ready == v.ready && u.bits == v.bits && u.waits == v.waits;
  }

  lemma G9ToG10()
    ensures Goes(G9(), Switch, G10()) && Behaves(G9(), Switch, PatientLocks)
  {
    hide CanDispatch, SelectNext; G9Switches();
  }

  function G11(): Kernel {
    MK(Sched(map[0 := Rdy(0, 0, 0), 1 := Tcb(1, 1, Suspended, Off, None, 0, OK, NoCall, 0, 0),
              3 := Runs(5, 5)],
             map[0 := [0], 1 := [], 5 := []], {0, 1}, [], map[M0 := []], 0, Some(3), 1), Some(3))
  }

  lemma G10ToG11()
    ensures Goes(G10(), LockReturn(0), G11()) && Behaves(G10(), LockReturn(0), PatientLocks)
  {
    var u, v := Next(G10(), LockReturn(0)).0.s, G11().s;
    assert u.tasks == v.tasks && u.ready == v.ready && u.bits == v.bits && u.waits == v.waits;
  }

  function G12(): Kernel {
    MK(Sched(map[0 := Rdy(0, 0, 0), 1 := Tcb(1, 1, Suspended, Off, None, 0, OK, NoCall, 0, 0),
              3 := Runs(5, 5)],
             map[0 := [0], 1 := [], 5 := []], {0, 1}, [], map[M0 := []], 0, Some(3), 1), None)
  }

  lemma G11ToG12()
    ensures Goes(G11(), Unlock(0), G12()) && Behaves(G11(), Unlock(0), PatientLocks)
  {
    var u, v := Next(G11(), Unlock(0)).0.s, G12().s;
    assert u.tasks == v.tasks && u.ready == v.ready && u.bits == v.bits && u.waits == v.waits;
  }

  function G13(): Kernel {
    MK(Sched(map[0 := Rdy(0, 0, 0), 1 := Tcb(1, 1, Suspended, Off, None, 0, OK, NoCall, 0, 0),
              3 := Tcb(5, 5, Blocked, OnDelayed, None, 1, OK, Delaying(1), 0, 0)],
             map[0 := [0], 1 := [], 5 := []], {0, 1}, [3], map[M0 := []], 0, Some(3), 1), None)
  }

  lemma G12Delays()
    ensures BlockOn(G12().s, 3, Delaying(1)) == G13().s
  {
    hide BlockOn; Lists(3, 0); BlocksFirst(G12().s, 3, Delaying(1));
    var u, v := BlockOn(G12().s, 3, Delaying(1)), G13().s;
    assert u.tasks == v.tasks && u.ready == v.ready && u.bits == v.bits && u.waits == v.waits;
  }

  lemma G12ToG13()
    ensures Goes(G12(), Delay(1), G13()) && Behaves(G12(), Delay(1), PatientLocks)
  {
    hide BlockOn; G12Delays();
  }

  // ---- a queue of capacity 1 -------------------------------------------------------------

  function D0(): Kernel {
    QK(Sched(map[0 := Rdy(0, 0, 0)],
             map[0 := [0]], {0}, [], map[], 0, None, 0), 0, 0)
  }

  function D1(): Kernel {
    QK(Sched(map[0 := Rdy(0, 0, 0), 1 := Rdy(1, 1, 1)],
             map[0 := [0], 1 := [1]], {0, 1}, [], map[], 0, None, 0), 0, 0)
  }

  lemma D0Creates()
    ensures CreateTask(D0().s, 1, 1) == D1().s
  {
    hide CreateTask; Lists(1, 0); Creates(D0().s, 1, 1);
    var u, v := CreateTask(D0().s, 1, 1), D1().s;
    assert u.tasks == v.tasks && u.ready == v.ready && u.bits == v.bits && u.waits == v.waits;
  }

  lemma D0ToD1()
    ensures Goes(D0(), Create(1, 1), D1())
  {
    hide CreateTask; D0Creates();
  }

  function D2(): Kernel {
    QK(Sched(map[0 := Rdy(0, 0, 0), 1 := Runs(1, 1)],
             map[0 := [0], 1 := []], {0}, [], map[], 0, Some(1), 0), 0, 0)
  }

  lemma D1Switches()
    ensures CanDispatch(D1().s) && SelectNext(D1().s) == D2().s
  {
    hide TopLevel, CanDispatch, SelectNext, W, Requeued; Lists(1, 0); NotRequeued(D1().s); TopIs(D1().s, 1);
    SwitchesTo(D1().s, D1().s, 1, 1);
    var u, v := SelectNext(D1().s), D2().s;
    assert u.tasks == v.tasks && u.ready == v.ready && u.bits == v.bits && u.waits == v.waits;
  }

  lemma D1ToD2()
    ensures Goes(D1(), Switch, D2())
  {
    hide CanDispatch, SelectNext; D1Switches();
  }

  function D3(): Kernel {
    QK(Sched(map[0 := Rdy(0, 0, 0), 1 := Runs(1, 1), 2 := Rdy(2, 2, 2)],
             map[0 := [0], 1 := [], 2 := [2]], {0, 2}, [], map[], 0, Some(1), 0), 0, 0)
  }

  lemma D2Creates()
    ensures CreateTask(D2().s, 2, 2) == D3().s
  {
    hide CreateTask; Lists(2, 0); Creates(D2().s, 2, 2);
    var u, v := CreateTask(D2().s, 2, 2), D3().s;
    assert u.tasks == v.tasks && u.ready == v.ready && u.bits == v.bits && u.waits == v.waits;
  }

  lemma D2ToD3()
    ensures Goes(D2(), Create(2, 2), D3())
  {
    hide CreateTask; D2Creates();
  }

  function D4(): Kernel {
    QK(Sched(map[0 := Rdy(0, 0, 0), 1 := Tcb(1, 1, Blocked, Off, Some(R0), 0, OK, Receiving(0, F), 0, 0),
              2 := Rdy(2, 2, 2)],
             map[0 := [0], 1 := [], 2 := [2]], {0, 2}, [], map[R0 := [1]], 0, Some(1), 1), 0, 0)
  }

  lemma D3ToD4()
    ensures Goes(D3(), Receive(0, F), D4())
  {
    hide BlockOn; BlocksFirst(D3().s, 1, Receiving(0, F));
    var u, v := Next(D3(), Receive(0, F)).0.s, D4().s;
    assert u.tasks == v.tasks && u.ready == v.ready && u.bits == v.bits && u.waits == v.waits;
  }

  function D5(): Kernel {
    QK(Sched(map[0 := Rdy(0, 0, 0), 1 := Tcb(1, 1, Blocked, Off, Some(R0), 0, OK, Receiving(0, F), 0, 0),
              2 := Runs(2, 2)],
             map[0 := [0], 1 := [], 2 := []], {0}, [], map[R0 := [1]], 0, Some(2), 1), 0, 0)
  }

  lemma D4Switches()
    ensures CanDispatch(D4().s) && SelectNext(D4().s) == D5().s
  {
    hide TopLevel, CanDispatch, SelectNext, W, Requeued; Lists(2, 0); NotRequeued(D4().s); TopIs(D4().s, 2);
    SwitchesTo(D4().s, D4().s, 2, 2);
    var u, v := SelectNext(D4().s), D5().s;
    assert u.tasks == v.tasks && u.ready == v.ready && u.bits == v.bits && u.waits == v.waits;
  }

  lemma D4ToD5()
    ensures Goes(D4(), Switch, D5())
  {
    hide CanDispatch, SelectNext; D4Switches();
  }

  function D6(): Kernel {
    QK(Sched(map[0 := Rdy(0, 0, 0), 1 := Tcb(1, 1, Ready, OnReady(1), None, 0, OK, Receiving(0, F), 1, 0),
              2 := Runs(2, 2)],
             map[0 := [0], 1 := [1], 2 := []], {0, 1}, [], map[R0 := []], 0, Some(2), 1), 10, 1)
  }

  lemma D5Wakes()
    ensures MakeReady(D5().s, 1, OK) == D6().s
  {
    hide MakeReady; Lists(1, 0); OneWakes(D5().s, R0, 1, OK);
    var u, v := MakeReady(D5().s, 1, OK), D6().s;
    assert u.tasks == v.tasks && u.ready == v.ready && u.bits == v.bits && u.waits == v.waits;
  }

  lemma D5ToD6()
    ensures Goes(D5(), Send(0, 10, F), D6())
  {
    hide QueueSend, WakeWaiter, MakeReady;
    D5Wakes();
    Sends(D5(), 10, 1);
  }

  function D7(): Kernel {
    QK(Sched(map[0 := Rdy(0, 0, 0), 1 := Tcb(1, 1, Ready, OnReady(1), None, 0, OK, Receiving(0, F), 1, 0),
              2 := Tcb(2, 2, Blocked, Off, Some(S0), 0, OK, Sending(0, 11, F), 0, 1)],
             map[0 := [0], 1 := [1], 2 := []], {0, 1}, [], map[R0 := [], S0 := [2]], 0, Some(2), 2), 10, 1)
  }

  lemma D6ToD7()
    ensures Goes(D6(), Send(0, 11, F), D7())
  {
    hide BlockOn; BlocksFirst(D6().s, 2, Sending(0, 11, F));
    var u, v := Next(D6(), Send(0, 11, F)).0.s, D7().s;
    assert u.tasks == v.tasks && u.ready == v.ready && u.bits == v.bits && u.waits == v.waits;
  }

  function D8(): Kernel {
    QK(Sched(map[0 := Rdy(0, 0, 0), 1 := Tcb(1, 1, Running, Off, None, 0, OK, Receiving(0, F), 1, 0),
              2 := Tcb(2, 2, Blocked, Off, Some(S0), 0, OK, Sending(0, 11, F), 0, 1)],
             map[0 := [0], 1 := [], 2 := []], {0}, [], map[R0 := [], S0 := [2]], 0, Some(1), 2), 10, 1)
  }

  lemma D7Switches()
    ensures CanDispatch(D7().s) && SelectNext(D7().s) == D8().s
  {
    hide TopLevel, CanDispatch, SelectNext, W, Requeued; Lists(1, 0); NotRequeued(D7().s); TopIs(D7().s, 1);
    SwitchesTo(D7().s, D7().s, 1, 1);
    var u, v := SelectNext(D7().s), D8().s;
    assert u.tasks == v.tasks && u.ready == v.ready && u.bits == v.bits && u.waits == v.waits;
  }

  lemma D7ToD8()
    ensures Goes(D7(), Switch, D8())
  {
    hide CanDispatch, SelectNext; D7Switches();
  }

  function D9(): Kernel {
    QK(Sched(map[0 := Rdy(0, 0, 0), 1 := Runs(1, 1),
              2 := Tcb(2, 2, Blocked, Off, Some(S0), 0, OK, Sending(0, 11, F), 0, 1)],
             map[0 := [0], 1 := [], 2 := []], {0}, [], map[R0 := [], S0 := [2]], 0, Some(1), 2), 10, 0)
  }

  lemma D8ToD9()
    ensures Goes(D8(), ReceiveReturn(0), D9())
  {
    var u, v := Next(D8(), ReceiveReturn(0)).0.s, D9().s;
    assert u.tasks == v.tasks && u.ready == v.ready && u.bits == v.bits && u.waits == v.waits;
  }

  function D10(): Kernel {
    QK(Sched(map[0 := Rdy(0, 0, 0), 1 := Tcb(1, 1, Blocked, Off, Some(R0), 0, OK, Receiving(0, F), 0, 2),
              2 := Tcb(2, 2, Blocked, Off, Some(S0), 0, OK, Sending(0, 11, F), 0, 1)],
             map[0 := [0], 1 := [], 2 := []], {0}, [], map[R0 := [1], S0 := [2]], 0, Some(1), 3), 10, 0)
  }

  lemma D9ToD10()
    ensures Goes(D9(), Receive(0, F), D10())
  {
    hide BlockOn; BlocksFirst(D9().s, 1, Receiving(0, F));
    var u, v := Next(D9(), Receive(0, F)).0.s, D10().s;
    assert u.tasks == v.tasks && u.ready == v.ready && u.bits == v.bits && u.waits == v.waits;
  }

  // ---- a waiter is boosted ---------------------------------------------------------------

  function E0(): Kernel {
    SK(Sched(map[0 := Rdy(0, 0, 0)],
             map[0 := [0]], {0}, [], map[], 0, None, 0), None)
  }

  function E1(): Kernel {
    SK(Sched(map[0 := Rdy(0, 0, 0), 1 := Rdy(1, 1, 1)],
             map[0 := [0], 1 := [1]], {0, 1}, [], map[], 0, None, 0), None)
  }

  lemma E0Creates()
    ensures CreateTask(E0().s, 1, 1) == E1().s
  {
    hide CreateTask; Lists(1, 0); Creates(E0().s, 1, 1);
    var u, v := CreateTask(E0().s, 1, 1), E1().s;
    assert u.tasks == v.tasks && u.ready == v.ready && u.bits == v.bits && u.waits == v.waits;
  }

  lemma E0ToE1()
    ensures Goes(E0(), Create(1, 1), E1())
  {
    hide CreateTask; E0Creates();
  }

  function E2(): Kernel {
    SK(Sched(map[0 := Rdy(0, 0, 0), 1 := Runs(1, 1)],
             map[0 := [0], 1 := []], {0}, [], map[], 0, Some(1), 0), None)
  }

  lemma E1Switches()
    ensures CanDispatch(E1().s) && SelectNext(E1().s) == E2().s
  {
    hide TopLevel, CanDispatch, SelectNext, W, Requeued; Lists(1, 0); NotRequeued(E1().s); TopIs(E1().s, 1);
    SwitchesTo(E1().s, E1().s, 1, 1);
    var u, v := SelectNext(E1().s), E2().s;
    assert u.tasks == v.tasks && u.ready == v.ready && u.bits == v.bits && u.waits == v.waits;
  }

  lemma E1ToE2()
    ensures Goes(E1(), Switch, E2())
  {
    hide CanDispatch, SelectNext; E1Switches();
  }

  function E3(): Kernel {
    SK(Sched(map[0 := Rdy(0, 0, 0), 1 := Runs(1, 1)],
             map[0 := [0], 1 := []], {0}, [], map[], 0, Some(1), 0), Some(1))
  }

  lemma E2ToE3()
    ensures Goes(E2(), Lock(0, F), E3())
  {
    var u, v := Next(E2(), Lock(0, F)).0.s, E3().s;
    assert u.tasks == v.tasks && u.ready == v.ready && u.bits == v.bits && u.waits == v.waits;
  }

  function E4(): Kernel {
    SK(Sched(map[0 := Rdy(0, 0, 0), 1 := Runs(1, 1), 2 := Rdy(2, 2, 2)],
             map[0 := [0], 1 := [], 2 := [2]], {0, 2}, [], map[], 0, Some(1), 0), Some(1))
  }

  lemma E3Creates()
    ensures CreateTask(E3().s, 2, 2) == E4().s
  {
    hide CreateTask; Lists(2, 0); Creates(E3().s, 2, 2);
    var u, v := CreateTask(E3().s, 2, 2), E4().s;
    assert u.tasks == v.tasks && u.ready == v.ready && u.bits == v.bits && u.waits == v.waits;
  }

  lemma E3ToE4()
    ensures Goes(E3(), Create(2, 2), E4())
  {
    hide CreateTask; E3Creates();
  }

  function E5(): Kernel {
    SK(Sched(map[0 := Rdy(0, 0, 0), 1 := Tcb(1, 1, Blocked, Off, Some(C0), 0, OK, Taking(0, F), 0, 0),
              2 := Rdy(2, 2, 2)],
             map[0 := [0], 1 := [], 2 := [2]], {0, 2}, [], map[C0 := [1]], 0, Some(1), 1), Some(1))
  }

  lemma E4ToE5()
    ensures Goes(E4(), Take(0, F), E5())
  {
    hide BlockOn; BlocksFirst(E4().s, 1, Taking(0, F));
    var u, v := Next(E4(), Take(0, F)).0.s, E5().s;
    assert u.tasks == v.tasks && u.ready == v.ready && u.bits == v.bits && u.waits == v.waits;
  }

  function E6(): Kernel {
    SK(Sched(map[0 := Rdy(0, 0, 0), 1 := Tcb(1, 1, Blocked, Off, Some(C0), 0, OK, Taking(0, F), 0, 0),
              2 := Runs(2, 2)],
             map[0 := [0], 1 := [], 2 := []], {0}, [], map[C0 := [1]], 0, Some(2), 1), Some(1))
  }

  lemma E5Switches()
    ensures CanDispatch(E5().s) && SelectNext(E5().s) == E6().s
  {
    hide TopLevel, CanDispatch, SelectNext, W, Requeued; Lists(2, 0); NotRequeued(E5().s); TopIs(E5().s, 2);
    SwitchesTo(E5().s, E5().s, 2, 2);
    var u, v := SelectNext(E5().s), E6().s;
    assert u.tasks == v.tasks && u.ready == v.ready && u.bits == v.bits && u.waits == v.waits;
  }

  lemma E5ToE6()
    ensures Goes(E5(), Switch, E6())
  {
    hide CanDispatch, SelectNext; E5Switches();
  }

  function E7(): Kernel {
    SK(Sched(map[0 := Rdy(0, 0, 0), 1 := Tcb(1, 1, Blocked, Off, Some(C0), 0, OK, Taking(0, F), 0, 0),
              2 := Runs(2, 2), 3 := Rdy(5, 5, 5)],
             map[0 := [0], 1 := [], 2 := [], 5 := [3]], {0, 5}, [], map[C0 := [1]], 0, Some(2), 1), Some(1))
  }

  lemma E6Creates()
    ensures CreateTask(E6().s, 3, 5) == E7().s
  {
    hide CreateTask; Lists(3, 0); Creates(E6().s, 3, 5);
    var u, v := CreateTask(E6().s, 3, 5), E7().s;
    assert u.tasks == v.tasks && u.ready == v.ready && u.bits == v.bits && u.waits == v.waits;
  }

  lemma E6ToE7()
    ensures Goes(E6(), Create(3, 5), E7())
  {
    hide CreateTask; E6Creates();
  }

  function E8(): Kernel {
    SK(Sched(map[0 := Rdy(0, 0, 0), 1 := Tcb(1, 1, Blocked, Off, Some(C0), 0, OK, Taking(0, F), 0, 0),
              2 := Tcb(2, 2, Blocked, Off, Some(C0), 0, OK, Taking(0, F), 0, 1), 3 := Rdy(5, 5, 5)],
             map[0 := [0], 1 := [], 2 := [], 5 := [3]], {0, 5}, [], map[C0 := [2, 1]], 0, Some(2), 2), Some(1))
  }

  lemma E7ToE8()
    ensures Goes(E7(), Take(0, F), E8())
  {
    hide BlockOn; BlocksAhead(E7().s, 2, Taking(0, F), 1);
    var u, v := Next(E7(), Take(0, F)).0.s, E8().s;
    assert u.tasks == v.tasks && u.ready == v.ready && u.bits == v.bits && u.waits == v.waits;
  }

  function E9(): Kernel {
    SK(Sched(map[0 := Rdy(0, 0, 0), 1 := Tcb(1, 1, Blocked, Off, Some(C0), 0, OK, Taking(0, F), 0, 0),
              2 := Tcb(2, 2, Blocked, Off, Some(C0), 0, OK, Taking(0, F), 0, 1), 3 := Runs(5, 5)],
             map[0 := [0], 1 := [], 2 := [], 5 := []], {0}, [], map[C0 := [2, 1]], 0, Some(3), 2), Some(1))
  }

  lemma E8Switches()
    ensures CanDispatch(E8().s) && SelectNext(E8().s) == E9().s
  {
    hide TopLevel, CanDispatch, SelectNext, W, Requeued; Lists(3, 0); NotRequeued(E8().s); TopIs(E8().s, 5);
    SwitchesTo(E8().s, E8().s, 5, 3);
    var u, v := SelectNext(E8().s), E9().s;
    assert u.tasks == v.tasks && u.ready == v.ready && u.bits == v.bits && u.waits == v.waits;
  }

  lemma E8ToE9()
    ensures Goes(E8(), Switch, E9())
  {
    hide CanDispatch, SelectNext; E8Switches();
  }

  function E10(): Kernel {
    SK(Sched(map[0 := Rdy(0, 0, 0), 1 := Tcb(5, 1, Blocked, Off, Some(C0), 0, OK, Taking(0, F), 0, 0),
              2 := Tcb(2, 2, Blocked, Off, Some(C0), 0, OK, Taking(0, F), 0, 1),
              3 := Tcb(5, 5, Blocked, Off, Some(M0), 0, OK, Locking(0, F), 0, 2)],
             map[0 := [0], 1 := [], 2 := [], 5 := []], {0}, [], map[C0 := [2, 1], M0 := [3]], 0, Some(3), 3), Some(1))
  }

  lemma E9ToE10()
    ensures Goes(E9(), Lock(0, F), E10())
  {
    hide BlockOn, Boost; BoostIs(E9().s, 1, 5); BlocksFirst(Boost(E9().s, 1, 5), 3, Locking(0, F));
    var u, v := Next(E9(), Lock(0, F)).0.s, E10().s;
    assert u.tasks == v.tasks && u.ready == v.ready && u.bits == v.bits && u.waits == v.waits;
  }

  // ---- the runs --------------------------------------------------------------------------

  const PREEMPTED: seq<Step> := [
    Create(1, 1), Switch, Lock(0, F), Create(3, 5), Switch
  ]

  lemma PreemptedFlat()
    ensures
      [Create(1, 1)] + ([Switch] + ([Lock(0, F)] + ([Create(3, 5)] + ([Switch] + ([]))))) == PREEMPTED
  {}

  lemma PreemptedTrace(rules: Rules)
    ensures Legal(K0(), PREEMPTED) && Run(K0(), PREEMPTED) == K5()
    ensures DisciplinedRun(K0(), PREEMPTED, rules)
  {
    hide Goes, Behaves, Legal, Run, DisciplinedRun, K0, K1, K2, K3, K4, K5;
    var r5: seq<Step> := [];
    Ends(K5(), rules);
    K4ToK5(); Then(K4(), Switch, K5(), r5, rules); var r4 := [Switch] + r5;
    K3ToK4(); Then(K3(), Create(3, 5), K4(), r4, rules); var r3 := [Create(3, 5)] + r4;
    K2ToK3(); Then(K2(), Lock(0, F), K3(), r3, rules); var r2 := [Lock(0, F)] + r3;
    K1ToK2(); Then(K1(), Switch, K2(), r2, rules); var r1 := [Switch] + r2;
    K0ToK1(); Then(K0(), Create(1, 1), K1(), r1, rules); var r0 := [Create(1, 1)] + r1;
    PreemptedFlat();
  }

  const OVERTAKEN: seq<Step> := [
    Create(2, 3), Lock(0, F), Switch
  ]

  lemma OvertakenFlat()
    ensures
      [Create(2, 3)] + ([Lock(0, F)] + ([Switch] + ([]))) == OVERTAKEN
  {}

  lemma OvertakenTrace(rules: Rules)
    ensures Legal(K5(), OVERTAKEN) && Run(K5(), OVERTAKEN) == A8()
    ensures DisciplinedRun(K5(), OVERTAKEN, rules)
  {
    hide Goes, Behaves, Legal, Run, DisciplinedRun, K5, A6, A7, A8;
    var r3: seq<Step> := [];
    Ends(A8(), rules);
    A7ToA8(); Then(A7(), Switch, A8(), r3, rules); var r2 := [Switch] + r3;
    A6ToA7(); Then(A6(), Lock(0, F), A7(), r2, rules); var r1 := [Lock(0, F)] + r2;
    K5ToA6(); Then(K5(), Create(2, 3), A6(), r1, rules); var r0 := [Create(2, 3)] + r1;
    OvertakenFlat();
  }

  const TIMED_OUT: seq<Step> := [
    Lock(0, 1), Switch, SysTick, Switch, LockReturn(0), Create(2, 7), Delay(100)
  ]

  lemma TimedOutFlat()
    ensures
      [Lock(0, 1)] + ([Switch] + ([SysTick] + ([Switch] + ([LockReturn(0)] + ([Create(2, 7)] + (
      [Delay(100)] + ([]))))))) == TIMED_OUT
  {}

  lemma TimedOutTrace()
    ensures Legal(K5(), TIMED_OUT) && Run(K5(), TIMED_OUT) == C12()
    ensures DisciplinedRun(K5(), TIMED_OUT, TimedLocks)
  {
    hide Goes, Behaves, Legal, Run, DisciplinedRun, K5, C6, C7, C8, C9, C10, C11, C12;
    var r7: seq<Step> := [];
    Ends(C12(), TimedLocks);
    C11ToC12(); Then(C11(), Delay(100), C12(), r7, TimedLocks); var r6 := [Delay(100)] + r7;
    C10ToC11(); Then(C10(), Create(2, 7), C11(), r6, TimedLocks); var r5 := [Create(2, 7)] + r6;
    C9ToC10(); Then(C9(), LockReturn(0), C10(), r5, TimedLocks); var r4 := [LockReturn(0)] + r5;
    C8ToC9(); Then(C8(), Switch, C9(), r4, TimedLocks); var r3 := [Switch] + r4;
    C7ToC8(); Then(C7(), SysTick, C8(), r3, TimedLocks); var r2 := [SysTick] + r3;
    C6ToC7(); Then(C6(), Switch, C7(), r2, TimedLocks); var r1 := [Switch] + r2;
    K5ToC6(); Then(K5(), Lock(0, 1), C6(), r1, TimedLocks); var r0 := [Lock(0, 1)] + r1;
    TimedOutFlat();
  }

  const HANDED_OVER: seq<Step> := [
    Switch, Lock(0, F), Switch, Unlock(0), Switch, LockReturn(0), Unlock(0), Delay(50)
  ]

  lemma HandedOverFlat()
    ensures
      [Switch] + ([Lock(0, F)] + ([Switch] + ([Unlock(0)] + ([Switch] + ([LockReturn(0)] + ([Unlock(0)] + (
      [Delay(50)] + ([])))))))) == HANDED_OVER
  {}

  lemma HandedOverTrace()
    ensures Legal(C12(), HANDED_OVER) && Run(C12(), HANDED_OVER) == C20()
    ensures DisciplinedRun(C12(), HANDED_OVER, TimedLocks)
  {
    hide Goes, Behaves, Legal, Run, DisciplinedRun, C12, C13, C14, C15, C16, C17, C18, C19, C20;
    var r8: seq<Step> := [];
    Ends(C20(), TimedLocks);
    C19ToC20(); Then(C19(), Delay(50), C20(), r8, TimedLocks); var r7 := [Delay(50)] + r8;
    C18ToC19(); Then(C18(), Unlock(0), C19(), r7, TimedLocks); var r6 := [Unlock(0)] + r7;
    C17ToC18(); Then(C17(), LockReturn(0), C18(), r6, TimedLocks); var r5 := [LockReturn(0)] + r6;
    C16ToC17(); Then(C16(), Switch, C17(), r5, TimedLocks); var r4 := [Switch] + r5;
    C15ToC16(); Then(C15(), Unlock(0), C16(), r4, TimedLocks); var r3 := [Unlock(0)] + r4;
    C14ToC15(); Then(C14(), Switch, C15(), r3, TimedLocks); var r2 := [Switch] + r3;
    C13ToC14(); Then(C13(), Lock(0, F), C14(), r2, TimedLocks); var r1 := [Lock(0, F)] + r2;
    C12ToC13(); Then(C12(), Switch, C13(), r1, TimedLocks); var r0 := [Switch] + r1;
    HandedOverFlat();
  }

  const LOST_WAKEUP: seq<Step> := [
    Create(1, 1), Switch, Create(2, 2), Receive(0, F), Switch, Send(0, 10, F), Send(0, 11, F), Switch,
    ReceiveReturn(0), Receive(0, F)
  ]

  lemma LostWakeupFlat()
    ensures
      [Create(1, 1)] + ([Switch] + ([Create(2, 2)] + ([Receive(0, F)] + ([Switch] + ([Send(0, 10, F)] + (
      [Send(0, 11, F)] + ([Switch] + ([ReceiveReturn(0)] + ([Receive(0, F)] + ([])))))))))) == LOST_WAKEUP
  {}

  lemma LostWakeupTrace()
    ensures Legal(D0(), LOST_WAKEUP) && Run(D0(), LOST_WAKEUP) == D10()
  {
    hide Goes, Behaves, Legal, Run, DisciplinedRun, D0, D1, D2, D3, D4, D5, D6, D7, D8, D9, D10;
    var r10: seq<Step> := [];
    Ends(D10(), Strict);
    D9ToD10(); Then(D9(), Receive(0, F), D10(), r10, Strict); var r9 := [Receive(0, F)] + r10;
    D8ToD9(); Then(D8(), ReceiveReturn(0), D9(), r9, Strict); var r8 := [ReceiveReturn(0)] + r9;
    D7ToD8(); Then(D7(), Switch, D8(), r8, Strict); var r7 := [Switch] + r8;
    D6ToD7(); Then(D6(), Send(0, 11, F), D7(), r7, Strict); var r6 := [Send(0, 11, F)] + r7;
    D5ToD6(); Then(D5(), Send(0, 10, F), D6(), r6, Strict); var r5 := [Send(0, 10, F)] + r6;
    D4ToD5(); Then(D4(), Switch, D5(), r5, Strict); var r4 := [Switch] + r5;
    D3ToD4(); Then(D3(), Receive(0, F), D4(), r4, Strict); var r3 := [Receive(0, F)] + r4;
    D2ToD3(); Then(D2(), Create(2, 2), D3(), r3, Strict); var r2 := [Create(2, 2)] + r3;
    D1ToD2(); Then(D1(), Switch, D2(), r2, Strict); var r1 := [Switch] + r2;
    D0ToD1(); Then(D0(), Create(1, 1), D1(), r1, Strict); var r0 := [Create(1, 1)] + r1;
    LostWakeupFlat();
  }

  const WAITER_BOOSTED: seq<Step> := [
    Create(1, 1), Switch, Lock(0, F), Create(2, 2), Take(0, F), Switch, Create(3, 5), Take(0, F), Switch,
    Lock(0, F)
  ]

  lemma WaiterBoostedFlat()
    ensures
      [Create(1, 1)] + ([Switch] + ([Lock(0, F)] + ([Create(2, 2)] + ([Take(0, F)] + ([Switch] + (
      [Create(3, 5)] + ([Take(0, F)] + ([Switch] + ([Lock(0, F)] + ([])))))))))) == WAITER_BOOSTED
  {}

  lemma WaiterBoostedTrace()
    ensures Legal(E0(), WAITER_BOOSTED) && Run(E0(), WAITER_BOOSTED) == E10()
  {
    hide Goes, Behaves, Legal, Run, DisciplinedRun, E0, E1, E2, E3, E4, E5, E6, E7, E8, E9, E10;
    var r10: seq<Step> := [];
    Ends(E10(), Strict);
    E9ToE10(); Then(E9(), Lock(0, F), E10(), r10, Strict); var r9 := [Lock(0, F)] + r10;
    E8ToE9(); Then(E8(), Switch, E9(), r9, Strict); var r8 := [Switch] + r9;
    E7ToE8(); Then(E7(), Take(0, F), E8(), r8, Strict); var r7 := [Take(0, F)] + r8;
    E6ToE7(); Then(E6(), Create(3, 5), E7(), r7, Strict); var r6 := [Create(3, 5)] + r7;
    E5ToE6(); Then(E5(), Switch, E6(), r6, Strict); var r5 := [Switch] + r6;
    E4ToE5(); Then(E4(), Take(0, F), E5(), r5, Strict); var r4 := [Take(0, F)] + r5;
    E3ToE4(); Then(E3(), Create(2, 2), E4(), r4, Strict); var r3 := [Create(2, 2)] + r4;
    E2ToE3(); Then(E2(), Lock(0, F), E3(), r3, Strict); var r2 := [Lock(0, F)] + r3;
    E1ToE2(); Then(E1(), Switch, E2(), r2, Strict); var r1 := [Switch] + r2;
    E0ToE1(); Then(E0(), Create(1, 1), E1(), r1, Strict); var r0 := [Create(1, 1)] + r1;
    WaiterBoostedFlat();
  }

  const OUTLIVED: seq<Step> := [
    Lock(0, 1), Switch, SysTick
  ]

  lemma OutlivedFlat()
    ensures
      [Lock(0, 1)] + ([Switch] + ([SysTick] + ([]))) == OUTLIVED
  {}

  lemma OutlivedTrace()
    ensures Legal(K5(), OUTLIVED) && Run(K5(), OUTLIVED) == C8()
    ensures DisciplinedRun(K5(), OUTLIVED, TimedLocks)
  {
    hide Goes, Behaves, Legal, Run, DisciplinedRun, K5, C6, C7, C8;
    var r3: seq<Step> := [];
    Ends(C8(), TimedLocks);
    C7ToC8(); Then(C7(), SysTick, C8(), r3, TimedLocks); var r2 := [SysTick] + r3;
    C6ToC7(); Then(C6(), Switch, C7(), r2, TimedLocks); var r1 := [Switch] + r2;
    K5ToC6(); Then(K5(), Lock(0, 1), C6(), r1, TimedLocks); var r0 := [Lock(0, 1)] + r1;
    OutlivedFlat();
  }

  const SELF_SUSPENDED: seq<Step> := [
    Lock(0, F), Switch, Unlock(0), Suspend(1), Switch, LockReturn(0), Unlock(0), Delay(1)
  ]

  lemma SelfSuspendedFlat()
    ensures
      [Lock(0, F)] + ([Switch] + ([Unlock(0)] + ([Suspend(1)] + ([Switch] + (
      [LockReturn(0)] + ([Unlock(0)] + ([Delay(1)] + ([])))))))) == SELF_SUSPENDED
  {}

  lemma SelfSuspendedTrace()
    ensures Legal(K5(), SELF_SUSPENDED) && Run(K5(), SELF_SUSPENDED) == G13()
    ensures DisciplinedRun(K5(), SELF_SUSPENDED, PatientLocks)
  {
    hide Goes, Behaves, Legal, Run, DisciplinedRun, K5, G6, G7, G8, G9, G10, G11, G12, G13;
    var r8: seq<Step> := [];
    Ends(G13(), PatientLocks);
    G12ToG13(); Then(G12(), Delay(1), G13(), r8, PatientLocks); var r7 := [Delay(1)] + r8;
    G11ToG12(); Then(G11(), Unlock(0), G12(), r7, PatientLocks); var r6 := [Unlock(0)] + r7;
    G10ToG11(); Then(G10(), LockReturn(0), G11(), r6, PatientLocks); var r5 := [LockReturn(0)] + r6;
    G9ToG10(); Then(G9(), Switch, G10(), r5, PatientLocks); var r4 := [Switch] + r5;
    G8ToG9(); Then(G8(), Suspend(1), G9(), r4, PatientLocks); var r3 := [Suspend(1)] + r4;
    G7ToG8(); Then(G7(), Unlock(0), G8(), r3, PatientLocks); var r2 := [Unlock(0)] + r3;
    G6ToG7(); Then(G6(), Switch, G7(), r2, PatientLocks); var r1 := [Switch] + r2;
    K5ToG6(); Then(K5(), Lock(0, F), G6(), r1, PatientLocks); var r0 := [Lock(0, F)] + r1;
    SelfSuspendedFlat();
  }

  const MIDDLE_TASK := PREEMPTED + OVERTAKEN
  const STALE_BIT := (PREEMPTED + TIMED_OUT) + HANDED_OVER

  lemma MiddleTaskTrace()
    ensures Legal(K0(), MIDDLE_TASK) && Run(K0(), MIDDLE_TASK) == A8() && DisciplinedRun(K0(), MIDDLE_TASK, Strict)
  {
    hide Legal, Run, DisciplinedRun, K0, K5, A8, PREEMPTED, OVERTAKEN;
    PreemptedTrace(Strict);
    OvertakenTrace(Strict);
    ThenRun(K0(), PREEMPTED, OVERTAKEN, Strict);
  }

  lemma StaleBitTrace()
    ensures Legal(K0(), STALE_BIT) && Run(K0(), STALE_BIT) == C20() && DisciplinedRun(K0(), STALE_BIT, TimedLocks)
  {
    hide Legal, Run, DisciplinedRun, K0, K5, C12, C20, PREEMPTED, TIMED_OUT, HANDED_OVER;
    PreemptedTrace(TimedLocks);
    TimedOutTrace();
    HandedOverTrace();
    ThenRun(K0(), PREEMPTED, TIMED_OUT, TimedLocks);
    ThenRun(K0(), PREEMPTED + TIMED_OUT, HANDED_OVER, TimedLocks);
  }

  lemma BootsEmpty(k: Kernel)
    requires k.s == K0().s && (forall m | m in k.mutexes :: k.mutexes[m] == Mutex(None, 0))
    requires forall q | q in k.queues :: k.queues[q] == Queue(k.queues[q].buffer, 0, 0, 0)
    ensures Boot(k)
  {
    Lists(0, 0);
    var u := CreateTask(Sched(map[], map[], {}, [], map[], 0, None, 0), IDLE, 0);
    assert u.tasks == k.s.tasks && u.ready == k.s.ready && u.bits == k.s.bits;
  }

  /**
   * docs/PRIORITY_INHERITANCE.md:52-63 promises that the middle task cannot run while the owner holds the mutex the
   * highest task waits for. It does: the owner was READY when it was boosted, and stayed on its old list.
   */
  lemma MiddleTaskRuns()
    ensures Boot(K0()) && Legal(K0(), MIDDLE_TASK) && DisciplinedRun(K0(), MIDDLE_TASK, Strict)
    ensures var s := Run(K0(), MIDDLE_TASK).s;
      && Owns(Run(K0(), MIDDLE_TASK), 1, 0) && W(s, MutexWaiters(0)) == [3] && T(s, 3).prio == T(s, 1).prio == 5
      && s.cur == Some(2) && T(s, 2).state == Running && T(s, 2).prio == 3
  {
    MiddleTaskTrace();
    BootsEmpty(K0());
  }

  /**
   * With timed locks dispatch is not safe: after this run, whose tasks nest no mutex and never wait while they hold
   * one, the highest set bit stands over an empty list.
   */
  lemma TimedLocksBreakDispatch()
    ensures Boot(K0()) && Legal(K0(), STALE_BIT) && DisciplinedRun(K0(), STALE_BIT, TimedLocks)
    ensures var s := Run(K0(), STALE_BIT).s;
      TopLevel(Requeued(s)) == 5 && 5 in s.bits && R(s, 5) == [] && !CanDispatch(s)
  {
    StaleBitTrace();
    BootsEmpty(K0());
    hide TopLevel;
    TopIs(C20().s, 5);
  }

  /**
   * Nor is it safe when a task suspends itself: a task that does is not taken off the list of its priority, so the bit
   * that its boost left behind is never cleared.
   */
  lemma SelfSuspensionBreaksDispatch()
    ensures var steps := PREEMPTED + SELF_SUSPENDED;
      Boot(K0()) && Legal(K0(), steps) && DisciplinedRun(K0(), steps, PatientLocks)
    ensures var s := Run(K0(), PREEMPTED + SELF_SUSPENDED).s;
      TopLevel(Requeued(s)) == 1 && 1 in s.bits && R(s, 1) == [] && !CanDispatch(s)
  {
    hide Legal, Run, DisciplinedRun, PREEMPTED, SELF_SUSPENDED;
    BootsEmpty(K0());
    PreemptedTrace(PatientLocks);
    SelfSuspendedTrace();
    ThenRun(K0(), PREEMPTED, SELF_SUSPENDED, PatientLocks);
    hide TopLevel;
    TopIs(G13().s, 1);
  }

  /**
   * The resume half of a receive wakes no sender: the receiver has emptied the queue and waits for an item, the sender
   * still waits for room, and nobody else is left to wake either.
   */
  lemma ReceiverAndSenderDeadlock()
    ensures Boot(D0()) && Legal(D0(), LOST_WAKEUP)
    ensures var k := Run(D0(), LOST_WAKEUP);
      && 0 in k.queues && k.queues[0].count == 0 && W(k.s, Receivers(0)) == [1] && W(k.s, Senders(0)) == [2]
      && forall t :: t in k.s.tasks && t != IDLE ==> T(k.s, t).state == Blocked && !Timed(T(k.s, t).call)
  {
    hide Legal, Run, Boot;
    LostWakeupTrace();
    BootsEmpty(D0());
  }

  /**
   * kernel/src/mutex.c:13-15 has the head of a wait list always be the one to wake next. Here it is not: a task that
   * owns a mutex waits for a semaphore behind another, and is boosted above it where it stands.
   */
  lemma BoostedWaiterStaysBehind()
    ensures Boot(E0()) && Legal(E0(), WAITER_BOOSTED)
    ensures var s := Run(E0(), WAITER_BOOSTED).s;
      && W(s, SemWaiters(0)) == [2, 1] && T(s, 1).prio == 5 && T(s, 2).prio == 2 && !SortedBy(s, W(s, SemWaiters(0)))
  {
    hide Legal, Run, Boot;
    WaiterBoostedTrace();
    BootsEmpty(E0());
    var s := E10().s;
    assert !Before(s, W(s, SemWaiters(0))[0], W(s, SemWaiters(0))[1]);
  }

  /** With timed locks a boost can outlive its waiter: the waiter is gone, and the owner still above its base. */
  lemma BoostOutlivesWaiter()
    ensures var steps := PREEMPTED + OUTLIVED;
      Boot(K0()) && Legal(K0(), steps) && DisciplinedRun(K0(), steps, TimedLocks)
    ensures var u := Run(K0(), PREEMPTED + OUTLIVED);
      Owns(u, 1, 0) && T(u.s, 1).prio == 5 && T(u.s, 1).base == 1 && W(u.s, MutexWaiters(0)) == []
  {
    hide Legal, Run, DisciplinedRun, PREEMPTED, OUTLIVED;
    BootsEmpty(K0());
    PreemptedTrace(TimedLocks);
    OutlivedTrace();
    ThenRun(K0(), PREEMPTED, OUTLIVED, TimedLocks);
  }
}

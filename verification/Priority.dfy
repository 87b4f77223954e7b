/**
 * When the highest-priority task runs. The bitmap and the ready lists are sharp when every set bit has a
 * task and every READY task is queued at its own priority; which steps break the one or the other is told exactly.
 */
module Priority {
  import opened Base
  import opened Sequences
  import opened Scheduler
  import opened Membership
  import opened Kernel
  import opened Invariants
  import opened Effects
  import opened Dispatch

  ghost predicate BitsExact(s: Sched) { forall n :: n in s.bits ==> R(s, n) != [] }

  ghost predicate AtOwnLevel(s: Sched) {
    forall t :: t in s.tasks && T(s, t).link.OnReady? ==> T(s, t).link.level == T(s, t).prio
  }

  ghost predicate Sharp(s: Sched) { BitsExact(s) && AtOwnLevel(s) }

  /** The step takes the only task of a list other than that of its priority, the one whose bit is tested. */
  predicate LeavesStaleBit(k: Kernel, step: Step)
    requires Enabled(k, step)
  {
    match step
    case Switch =>
      var v := Requeued(k.s);
      |R(v, TopLevel(v))| == 1 && T(k.s, Chosen(k.s)).prio != TopLevel(v)
    case Suspend(t) =>
      var c := T(k.s, t);
      c.state == Ready && c.link.OnReady? && c.link.level != c.prio && R(k.s, c.link.level) == [t]
    case _ => false
  }

  /** A lock that waits and raises the priority of a READY owner. */
  predicate BoostsReady(k: Kernel, step: Step) {
    && step.Lock? && Blocks(k, step)
    && T(k.s, k.mutexes[step.m].owner.value).state == Ready
    && T(k.s, Self(k)).prio > T(k.s, k.mutexes[step.m].owner.value).prio
  }

  // ---- one step --------------------------------------------------------------------------

  lemma GatheringKeepsSharp(k: Kernel, step: Step)
    requires Inv(k) && Enabled(k, step) && OnlyGathers(k, step)
    ensures BitsExact(k.s) ==> BitsExact(Next(k, step).0.s)
    ensures AtOwnLevel(k.s) ==> AtOwnLevel(Next(k, step).0.s)
  {
    NextKeeps(k, step);
    MutexesOfInv(k);
    MutexesOfInv(Next(k, step).0);
    OffIfRunning(k.s);
    OffIfRunning(Next(k, step).0.s);
    hide Inv, Linked, AllPlaced, Enabled, Next, OnlyGathers, Releases, T, R;
    var u := GatherEffect(k, step);
    forall n | BitsExact(k.s) && n in u.bits ensures R(u, n) != [] { assert R(k.s, n) <= R(u, n); }
  }

  /** A task that waits leaves no list, and the bit of its priority is set only over a list. */
  lemma BlockingKeepsBits(k: Kernel, step: Step)
    requires Inv(k) && Enabled(k, step) && Blocks(k, step) && BitsExact(k.s)
    ensures BitsExact(Next(k, step).0.s)
  {
    hide Inv, Enabled, Next, Blocks, T, R;
    var u := BlockEffect(k, step);
  }

  lemma BlockingKeepsLevels(k: Kernel, step: Step)
    requires Inv(k) && Enabled(k, step) && Blocks(k, step) && AtOwnLevel(k.s)
    ensures AtOwnLevel(Next(k, step).0.s) <==> !BoostsReady(k, step)
  {
    MutexesOfInv(k);
    OffIfRunning(k.s);
    hide Inv, Linked, AllPlaced, Enabled, Next, T, R;
    var u := BlockEffect(k, step);
    if step.Lock? {
      var o := k.mutexes[step.m].owner.value;
      assert Owns(k, o, step.m) && T(u, o).link == T(k.s, o).link;
    }
  }

  lemma SwitchBits(k: Kernel)
    requires Inv(k) && Enabled(k, Switch) && BitsExact(k.s)
    ensures BitsExact(SelectNext(k.s)) <==> !LeavesStaleBit(k, Switch)
  {
    MutexesOfInv(k);
    CurrentExists(k.s);
    RequeuedLinked(k.s);
    BitIfAny(Requeued(k.s));
    hide Inv, Linked, AllPlaced, CanDispatch, SelectNext, Chosen, TopLevel, Requeued, T, R, W;
    hide BitsExact;
    RequeuedBits(k.s);
    var v, u := SelectNextFrame(k.s);
    assert R(v, TopLevel(v)) != [] by { SomeTask(k.s); }
    assert T(v, Chosen(k.s)).prio == T(k.s, Chosen(k.s)).prio by { var w := RequeuedFrame(k.s); }
    TakenBits(v, u, TopLevel(v), T(k.s, Chosen(k.s)).prio);
  }

  lemma SomeTask(s: Sched)
    requires CanDispatch(s)
    ensures R(Requeued(s), TopLevel(Requeued(s))) != []
  {}

  lemma TakenBits(v: Sched, u: Sched, h: nat, p: nat)
    requires BitsExact(v) && h in v.bits && R(v, h) != []
    requires forall n :: R(u, n) == if n == h then R(v, n)[1..] else R(v, n)
    requires u.bits == if R(u, p) == [] then v.bits - {p} else v.bits
    ensures BitsExact(u) <==> !(|R(v, h)| == 1 && p != h)
  {
    hide R;
  }

  lemma RequeuedBits(s: Sched)
    requires BitsExact(s) && (s.cur.Some? ==> s.cur.value in s.tasks)
    ensures BitsExact(Requeued(s))
  {
    hide Requeued, T, R, W;
    var v := RequeuedFrame(s);
  }

  lemma SuspendBits(k: Kernel, t: Tid)
    requires Inv(k) && Enabled(k, Suspend(t)) && BitsExact(k.s)
    ensures BitsExact(SuspendTask(k.s, t)) <==> !LeavesStaleBit(k, Suspend(t))
  {
    MutexesOfInv(k);
    OffIfRunning(k.s);
    BitsOf(k.s);
    hide Inv, Linked, AllPlaced, SuspendTask, TaskCode, T, R, W;
    var u := SuspendEffect(k.s, t);
    if T(k.s, t).state == Ready { OnlyOne(R(k.s, T(k.s, t).link.level), t); }
  }

  lemma OnlyOne(q: seq<Tid>, t: Tid)
    requires t in q
    ensures Without(q, t) == [] <==> q == [t]
  {
    WithoutKeepsOrder(q, t);
  }

  /**
   * With a task behind every set bit, a step leaves a bit over an empty list exactly if it is one of the two kinds
   * above.
   */
  lemma BitsExactly(k: Kernel, step: Step)
    requires Inv(k) && Enabled(k, step) && BitsExact(k.s)
    ensures BitsExact(Next(k, step).0.s) <==> !LeavesStaleBit(k, step)
  {
    hide Inv, BitsExact, Blocks, TaskCode, CanDispatch, SelectNext, SuspendTask;
    match step
    case Switch => SwitchBits(k);
    case Suspend(t) => SuspendBits(k, t);
    case _ =>
      hide Enabled, Next;
      if Blocks(k, step) { BlockingKeepsBits(k, step); } else { GatheringKeepsSharp(k, step); }
  }

  lemma SwitchAtOwnLevel(k: Kernel)
    requires Inv(k) && Enabled(k, Switch) && AtOwnLevel(k.s)
    ensures AtOwnLevel(SelectNext(k.s)) && !LeavesStaleBit(k, Switch)
  {
    hide Inv, CanDispatch, SelectNext, Chosen, TopLevel, Requeued, T, R, W;
    var t, v, u := SwitchView(k);
  }

  lemma SuspendAtOwnLevel(k: Kernel, t: Tid)
    requires Inv(k) && Enabled(k, Suspend(t)) && AtOwnLevel(k.s)
    ensures AtOwnLevel(SuspendTask(k.s, t)) && !LeavesStaleBit(k, Suspend(t))
  {
    hide Inv, SuspendTask, TaskCode, T, R, W, Without;
    var u := SuspendEffect(k.s, t);
  }

  /** A step keeps the lists sharp exactly if it does not boost a READY owner, and that step always blurs them. */
  lemma SharpExactly(k: Kernel, step: Step)
    requires Inv(k) && Enabled(k, step) && Sharp(k.s)
    ensures Sharp(Next(k, step).0.s) <==> !BoostsReady(k, step)
  {
    hide Inv, BitsExact, AtOwnLevel, Blocks, TaskCode, CanDispatch, SelectNext, SuspendTask, LeavesStaleBit;
    BitsExactly(k, step);
    match step
    case Switch => SwitchAtOwnLevel(k);
    case Suspend(t) => SuspendAtOwnLevel(k, t);
    case _ =>
      hide Enabled, Next;
      NoListLeft(k, step);
      if Blocks(k, step) { BlockingKeepsLevels(k, step); } else { GatheringKeepsSharp(k, step); }
  }

  lemma NoListLeft(k: Kernel, step: Step)
    requires Enabled(k, step) && step != Switch && !step.Suspend?
    ensures !LeavesStaleBit(k, step)
  {}

  // ---- the bitmap over whole runs --------------------------------------------------------

  /** In every state of the run a bit is set exactly if its list has a task. */
  ghost predicate BitmapHolds(k: Kernel, steps: seq<Step>)
    requires Legal(k, steps)
    decreases |steps|
  {
    && (forall n :: n in k.s.bits <==> R(k.s, n) != [])
    && (steps == [] || BitmapHolds(Next(k, steps[0]).0, steps[1..]))
  }

  predicate NeverLeavesStaleBit(k: Kernel, steps: seq<Step>)
    requires Legal(k, steps)
    decreases |steps|
  {
    steps != [] ==> !LeavesStaleBit(k, steps[0]) && NeverLeavesStaleBit(Next(k, steps[0]).0, steps[1..])
  }

  lemma {:induction false} BitmapThroughout(k: Kernel, steps: seq<Step>)
    requires Inv(k) && BitsExact(k.s) && Legal(k, steps)
    ensures BitmapHolds(k, steps) <==> NeverLeavesStaleBit(k, steps)
    decreases |steps|
  {
    MutexesOfInv(k);
    hide Inv, Linked, AllPlaced, Enabled, Next, LeavesStaleBit, R;
    BitIfAny(k.s);
    if steps != [] {
      BitsExactly(k, steps[0]);
      NextKeeps(k, steps[0]);
      if BitsExact(Next(k, steps[0]).0.s) { BitmapThroughout(Next(k, steps[0]).0, steps[1..]); }
      else { assert !BitmapHolds(Next(k, steps[0]).0, steps[1..]); }
    }
  }

  lemma BitIfAny(s: Sched)
    requires Linked(s)
    ensures forall n :: R(s, n) != [] ==> n in s.bits
  {}

  /** The promise that a bit is set exactly if its list has a task, over every run from boot: when it is kept. */
  lemma BitmapExactly(k: Kernel, steps: seq<Step>)
    requires Boot(k) && Legal(k, steps)
    ensures BitmapHolds(k, steps) <==> NeverLeavesStaleBit(k, steps)
  {
    hide Boot, Inv, BitsExact, Legal, BitmapHolds, NeverLeavesStaleBit;
    BootInv(k);
    BootSharp(k);
    BitmapThroughout(k, steps);
  }

  // ---- what sharp lists give -------------------------------------------------------------

  /** With sharp lists a switch works exactly if some task can run, and it picks one of highest priority. */
  lemma HighestPriorityRuns(k: Kernel)
    requires Inv(k) && Sharp(k.s)
    ensures CanDispatch(k.s) <==> exists t :: Runnable(k.s, t)
    ensures CanDispatch(k.s) ==> Runnable(k.s, Chosen(k.s))
                                 && forall t :: Runnable(k.s, t) ==> T(k.s, t).prio <= T(k.s, Chosen(k.s)).prio
  {
    MutexesOfInv(k);
    OffIfRunning(k.s);
    BitsOf(k.s);
    hide Inv, Linked, AllPlaced, CanDispatch, Chosen, T, R;
    DispatchExactly(k);
    assert forall t :: Runnable(k.s, t) ==> Standing(k.s, t) == T(k.s, t).prio;
    forall n | n in k.s.bits ensures exists t :: Runnable(k.s, t) && Standing(k.s, t) >= n {
      assert R(k.s, n)[0] in R(k.s, n) && Runnable(k.s, R(k.s, n)[0]);
    }
  }

  /** No step of the run boosts a READY owner. */
  predicate NeverBlurs(k: Kernel, steps: seq<Step>)
    requires Legal(k, steps)
    decreases |steps|
  {
    steps != [] ==> !BoostsReady(k, steps[0]) && NeverBlurs(Next(k, steps[0]).0, steps[1..])
  }

  lemma {:induction false} SharpRun(k: Kernel, steps: seq<Step>)
    requires Inv(k) && Sharp(k.s) && Legal(k, steps) && NeverBlurs(k, steps)
    ensures Inv(Run(k, steps)) && Sharp(Run(k, steps).s)
    decreases |steps|
  {
    if steps != [] {
      hide Inv, Sharp, Enabled, Next, BoostsReady;
      SharpExactly(k, steps[0]);
      NextKeeps(k, steps[0]);
      SharpRun(Next(k, steps[0]).0, steps[1..]);
    }
  }

  lemma BootSharp(k: Kernel)
    requires Boot(k)
    ensures Sharp(k.s)
  {
    assert R(k.s, 0) == [IDLE] && k.s.bits == {0} && forall t :: t in k.s.tasks ==> t == IDLE;
  }

  /** In every run that boosts no READY owner, dispatch works whenever a task can run, and the top priority runs. */
  lemma TopPriorityAlwaysRuns(k: Kernel, steps: seq<Step>)
    requires Boot(k) && Legal(k, steps) && NeverBlurs(k, steps)
    ensures var s := Run(k, steps).s;
      && (CanDispatch(s) <==> exists t :: Runnable(s, t))
      && (CanDispatch(s) ==> Runnable(s, Chosen(s)) && forall t ::
            Runnable(s, t) ==> T(s, t).prio <= T(s, Chosen(s)).prio)
  {
    hide Boot, Inv, Sharp, Legal, NeverBlurs, Run, CanDispatch, Chosen, T;
    BootInv(k);
    BootSharp(k);
    SharpRun(k, steps);
    HighestPriorityRuns(Run(k, steps));
  }
}

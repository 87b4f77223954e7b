/**
 * Who a signal goes to: wait lists stay in priority order, and in order of arrival among equals, unless a waiter is
 * boosted beyond one ahead of it.
 */
module WaitOrder {
  import opened Base
  import opened Sequences
  import opened Scheduler
  import opened Membership
  import opened Evolution
  import opened Kernel
  import opened Invariants
  import opened Effects
  import opened Inheritance

  /** The step raises the priority of a task that waits: a lock on a mutex whose owner is itself blocked. */
  predicate BoostsWaiter(k: Kernel, step: Step) {
    && step.Lock? && Blocks(k, step)
    && T(k.s, k.mutexes[step.m].owner.value).event.Some?
    && T(k.s, Self(k)).prio > T(k.s, k.mutexes[step.m].owner.value).prio
  }

  lemma RearrangedOrder(k: Kernel, step: Step)
    requires Inv(k) && Enabled(k, step) && Rearranges(step) && WaitsSorted(k.s)
    ensures WaitsSorted(Next(k, step).0.s)
  {
    hide Inv, WaitsSorted, TaskCode, SelectNext, SuspendTask, ResumeTask, CanDispatch, T, W;
    var u := k.s;
    match step
    case Switch => SwitchOrder(k);
    case Suspend(t) => u := SuspendEffect(k.s, t); SortedWhenSame(k.s, u);
    case Resume(t) => u := ResumeEffect(k.s, t); SortedWhenSame(k.s, u);
  }

  lemma SwitchOrder(k: Kernel)
    requires Inv(k) && CanDispatch(k.s) && WaitsSorted(k.s)
    ensures WaitsSorted(SelectNext(k.s))
  {
    hide Inv, Linked, AllPlaced, WaitsSorted, CanDispatch, SelectNext, Chosen, TopLevel, Requeued, T, R, W;
    var t, v, u := SwitchView(k);
    SortedWhenSame(k.s, u);
  }

  lemma LockOrder(k: Kernel, m: nat, timeout: nat)
    requires Inv(k) && Enabled(k, Lock(m, timeout)) && !BoostsWaiter(k, Lock(m, timeout)) && WaitsSorted(k.s)
    ensures WaitsSorted(MutexLock(k, m, timeout).0.s)
  {
    hide Inv, Linked, AllPlaced, Placed, WaitsSorted, BlockOn, Boost, TaskCode, T, R, W;
    SelfFacts(k);
    if MutexLock(k, m, timeout).1 == Waits {
      MutexesOfInv(k);
      BoostOrder(k, m, timeout);
      hide MutexLock;
      var o, b, u := LockWaits(k, m, timeout);
      BlockSorted(b, Self(k), Locking(m, timeout));
    }
  }

  lemma BoostOrder(k: Kernel, m: nat, timeout: nat)
    requires Inv(k) && Enabled(k, Lock(m, timeout)) && k.mutexes[m].owner.Some? && WaitsSorted(k.s)
    requires MutexLock(k, m, timeout).1 == Waits && !BoostsWaiter(k, Lock(m, timeout))
    ensures var o := k.mutexes[m].owner.value; WaitsSorted(Boost(k.s, o, T(k.s, Self(k)).prio))
  {
    hide Inv, Linked, AllPlaced, Placed, WaitsSorted, BlockOn, Boost, MutexesOk, TaskCode, T, R, W;
    MutexesOfInv(k);
    SelfFacts(k);
    var o := k.mutexes[m].owner.value;
    assert Owns(k, o, m);
    var b := BoostFrame(k.s, o, T(k.s, Self(k)).prio);
    if T(k.s, o).event == None { NotWaiting(k.s, o); }
    SortedWhenSame(k.s, b);
  }

  lemma UnlockOrder(k: Kernel, m: nat)
    requires Inv(k) && Enabled(k, Unlock(m)) && WaitsSorted(k.s)
    ensures WaitsSorted(MutexUnlock(k, m).0.s)
  {
    hide Inv, WaitsSorted, WakeWaiter, Restore, T, W;
    if k.mutexes[m].owner == Some(Self(k)) && (k.mutexes[m].depth + U32 - 1) % U32 == 0 { UnlockSorted(k, m); }
  }

  // ---- boosting a waiter -----------------------------------------------------------------

  /** `x`, ahead of `o`, would still be if `o` had priority `p`. */
  predicate StaysAhead(s: Sched, x: Tid, o: Tid, p: nat) {
    T(s, x).prio > p || (T(s, x).prio == p && T(s, x).arrived < T(s, o).arrived)
  }

  /** The boost of a waiter beyond one ahead of it: the node stays where it is. */
  ghost predicate UpsetsOrder(k: Kernel, step: Step) {
    BoostsWaiter(k, step) &&
    var s, o := k.s, k.mutexes[step.m].owner.value;
    exists x :: x in W(s, T(s, o).event.value) && Before(s, x, o) && !StaysAhead(s, x, o, T(s, Self(k)).prio)
  }

  lemma AheadIsEarlier(s: Sched, q: seq<Tid>, i: nat, k: nat)
    requires SortedBy(s, q) && i < |q| && k < |q| && Before(s, q[i], q[k])
    ensures i < k
  {}

  /** One list, when one of its tasks gets priority `p`. */
  lemma RaisedIsSorted(s: Sched, b: Sched, q: seq<Tid>, o: Tid, p: nat)
    requires SortedBy(s, q) && o in q && p > T(s, o).prio && T(b, o) == T(s, o).(prio := p)
    requires forall x :: x != o ==> T(b, x) == T(s, x)
    ensures SortedBy(b, q) <==> forall x :: x in q && Before(s, x, o) ==> StaysAhead(s, x, o, p)
  {
    var k :| 0 <= k < |q| && q[k] == o;
    hide T;
    if SortedBy(b, q) {
      forall x | x in q && Before(s, x, o) ensures StaysAhead(s, x, o, p) {
        var i :| 0 <= i < |q| && q[i] == x;
        AheadIsEarlier(s, q, i, k);
        assert Before(b, q[i], q[k]);
      }
    } else {
      var i, j :| 0 <= i < j < |q| && !Before(b, q[i], q[j]);
      assert Before(s, q[i], q[j]) && q[i] in q;
    }
  }

  /** The block half of a lock that boosts a waiter: order is lost exactly in the list of that waiter. */
  lemma BoostedOrder(k: Kernel, m: nat, timeout: nat)
    requires Inv(k) && Enabled(k, Lock(m, timeout)) && BoostsWaiter(k, Lock(m, timeout)) && WaitsSorted(k.s)
    ensures WaitsSorted(MutexLock(k, m, timeout).0.s) <==> !UpsetsOrder(k, Lock(m, timeout))
  {
    hide Inv, Linked, AllPlaced, Placed, MutexesOk, SortedBy, StaysAhead, Before, BlockOn, Boost, TaskCode,
         InsertWaiter, MutexLock, T, R, W;
    SelfFacts(k);
    MutexesOfInv(k);
    WaitsExactly(k, Lock(m, timeout));
    LockIs(k, m, timeout);
    var self, p := Self(k), T(k.s, Self(k)).prio;
    var o, b, u := LockWaits(k, m, timeout);
    var w := T(k.s, o).event.value;
    OwnerElsewhere(k, m, o);
    NotWaiting(b, self);
    RaisedIsSorted(k.s, b, W(k.s, w), o, p);
    if SortedBy(b, W(b, w)) {
      OthersSorted(k.s, b, o, w);
      BlockSorted(b, self, Locking(m, timeout));
    } else {
      u := BlockOnFrame(b, self, Locking(m, timeout));
      if SortedBy(u, W(u, w)) { SortedSame(u, b, W(b, w)); }
    }
  }

  lemma LockIs(k: Kernel, m: nat, timeout: nat)
    requires Enabled(k, Lock(m, timeout))
    ensures Next(k, Lock(m, timeout)) == MutexLock(k, m, timeout) && TaskCode(k)
  {}

  /** The owner of a mutex waits for something else. */
  lemma OwnerElsewhere(k: Kernel, m: nat, o: Tid)
    requires Inv(k) && Owns(k, o, m) && T(k.s, o).event.Some?
    ensures T(k.s, o).event != Some(MutexWaiters(m)) && o in W(k.s, T(k.s, o).event.value)
  {
    assert Placed(k.s, o);
  }

  lemma OthersSorted(s: Sched, b: Sched, o: Tid, w: WaitList)
    requires WaitsSorted(s) && Linked(s) && T(s, o).event == Some(w) && o in s.tasks && SortedBy(b, W(b, w))
    requires b.arrivals == s.arrivals && forall v :: W(b, v) == W(s, v)
    requires T(b, o).arrived == T(s, o).arrived && forall x :: x != o ==> T(b, x) == T(s, x)
    ensures WaitsSorted(b)
  {
    OneListEach(s);
    hide SortedBy, NoDup, T, W;
    forall v ensures SortedBy(b, W(b, v)) {
      if v != w { SortedSame(s, b, W(s, v)); }
    }
  }

  /** A step upsets the order of a wait list exactly if it boosts a waiter beyond one ahead of it. */
  lemma OrderExactly(k: Kernel, step: Step)
    requires Inv(k) && Enabled(k, step) && WaitsSorted(k.s)
    ensures WaitsSorted(Next(k, step).0.s) <==> !UpsetsOrder(k, step)
  {
    hide Inv, WaitsSorted, Blocks, TaskCode, Resumed, MutexLock, MutexUnlock, Leave, Enter, T, W;
    match step
    case Lock(m, timeout) =>
      if BoostsWaiter(k, step) { BoostedOrder(k, m, timeout); } else { LockOrder(k, m, timeout); }
    case Unlock(m) => UnlockOrder(k, m);
    case LockReturn(m) => ReturnOrder(k, m);
    case _ =>
      hide Enabled, Next;
      if Rearranges(step) { RearrangedOrder(k, step); } else { RestOrder(k, step); }
  }

  lemma ReturnOrder(k: Kernel, m: nat)
    requires Inv(k) && Enabled(k, LockReturn(m)) && WaitsSorted(k.s)
    ensures WaitsSorted(Next(k, LockReturn(m)).0.s)
  {
    hide Inv, Placed, WaitsSorted, Leave, T, W;
    SelfFacts(k);
    LeaveQuiet(k.s, Self(k));
    var u := LeaveFrame(k.s, Self(k));
    SortedWhenSame(k.s, u);
  }

  lemma RestOrder(k: Kernel, step: Step)
    requires Inv(k) && Enabled(k, step) && NoMutex(step) && !Rearranges(step) && WaitsSorted(k.s)
    ensures WaitsSorted(Next(k, step).0.s)
  {
    hide Inv, Plain, TasksEvolve, ActorEvolves, ListsEvolve, PatientStay, WaitsSorted, Enabled, Next;
    OrdinaryStep(k, step);
  }

  // ---- runs ------------------------------------------------------------------------------

  /** Every wait list is in order in every state of the run. */
  ghost predicate OrderHolds(k: Kernel, steps: seq<Step>)
    requires Legal(k, steps)
    decreases |steps|
  {
    WaitsSorted(k.s) && (steps == [] || OrderHolds(Next(k, steps[0]).0, steps[1..]))
  }

  ghost predicate NeverUpset(k: Kernel, steps: seq<Step>)
    requires Legal(k, steps)
    decreases |steps|
  {
    steps != [] ==> !UpsetsOrder(k, steps[0]) && NeverUpset(Next(k, steps[0]).0, steps[1..])
  }

  lemma {:induction false} OrderThroughout(k: Kernel, steps: seq<Step>)
    requires Inv(k) && WaitsSorted(k.s) && Legal(k, steps)
    ensures OrderHolds(k, steps) <==> NeverUpset(k, steps)
    ensures NeverUpset(k, steps) ==> Inv(Run(k, steps)) && WaitsSorted(Run(k, steps).s)
    decreases |steps|
  {
    if steps != [] {
      hide Inv, WaitsSorted, Enabled, Next, UpsetsOrder;
      OrderExactly(k, steps[0]);
      NextKeeps(k, steps[0]);
      if WaitsSorted(Next(k, steps[0]).0.s) { OrderThroughout(Next(k, steps[0]).0, steps[1..]); }
      else { assert !OrderHolds(Next(k, steps[0]).0, steps[1..]); }
    }
  }

  /** From boot: every wait list is always in order exactly if no step boosts a waiter beyond one ahead of it. */
  lemma WaitOrderExactly(k: Kernel, steps: seq<Step>)
    requires Boot(k) && Legal(k, steps)
    ensures OrderHolds(k, steps) <==> NeverUpset(k, steps)
  {
    hide Boot, Inv, Inh, WaitsSorted, Legal, OrderHolds, NeverUpset, Run;
    BootInv(k);
    BootInh(k, TimedLocks);
    InhOwners(k, TimedLocks);
    OrderThroughout(k, steps);
  }

  /**
   * Over every such run, with or without timeouts, nesting and suspension: the task at the head of a wait list, the
   * one the next signal wakes, is the longest-waiting of the waiters of highest priority.
   */
  lemma HeadHasWaitedLongest(k: Kernel, steps: seq<Step>, w: WaitList)
    requires Boot(k) && Legal(k, steps) && NeverUpset(k, steps)
    ensures var s := Run(k, steps).s; var q := W(s, w);
      && NoDup(q) && SortedBy(s, q)
      && forall t :: t in q && t != q[0] ==>
           T(s, t).prio < T(s, q[0]).prio || (T(s, t).prio == T(s, q[0]).prio && T(s, q[0]).arrived < T(s, t).arrived)
  {
    hide Boot, Inv, Inh, Linked, AllPlaced, Legal, NeverUpset, OrderHolds, Run, NoDup, T, W;
    BootInv(k);
    BootInh(k, TimedLocks);
    InhOwners(k, TimedLocks);
    OrderThroughout(k, steps);
    MutexesOfInv(Run(k, steps));
    var s := Run(k, steps).s;
    OneListEach(s);
    var q := W(s, w);
    assert SortedBy(s, q);
    forall t | t in q && t != q[0] ensures Before(s, q[0], t) {}
  }
}

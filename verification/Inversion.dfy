/**
 * How far priority inversion can go: the level an owner stands at never drops while it owns
 * its mutex, and no switch in between goes to a task below that level.
 */
module Inversion {
  import opened Base
  import opened Sequences
  import opened Scheduler
  import opened Membership
  import opened Evolution
  import opened Kernel
  import opened Invariants
  import opened Effects
  import opened Dispatch
  import opened Inheritance

  lemma SwitchKeepsStanding(k: Kernel, o: Tid)
    requires Inv(k) && CanDispatch(k.s) && OwnersUp(k) && LevelsOk(k) && o in k.s.tasks
    requires T(k.s, o).state == Ready || T(k.s, o).state == Running
    ensures Standing(SelectNext(k.s), o) >= Standing(k.s, o)
  {
    hide Inv, OwnersUp, CanDispatch, SelectNext, Chosen, TopLevel, Requeued, T, R, W;
    MutexesOfInv(k);
    assert AllPlaced(k.s);
    OffIfRunning(k.s);
    var t, v, u := SwitchView(k);
  }

  /** The task a switch picks comes from a list at or above the standing of every runnable task. */
  lemma SwitchPicksNoLower(k: Kernel, o: Tid)
    requires Inv(k) && CanDispatch(k.s) && OwnersUp(k) && LevelsOk(k) && o in k.s.tasks
    ensures TopLevel(Requeued(k.s)) >= Standing(k.s, o)
    ensures T(SelectNext(k.s), Chosen(k.s)).prio >= TopLevel(Requeued(k.s))
  {
    hide Inv, Linked, AllPlaced, OwnersUp, CanDispatch, SelectNext, Chosen, TopLevel, Requeued, T, R, W;
    MutexesOfInv(k);
    OffIfRunning(k.s);
    CurrentExists(k.s);
    var t, v, u := SwitchView(k);
    SomeBit(k.s);
    TopLevelFacts(k.s, v);
    v := RequeuedFrame(k.s);
    if T(k.s, o).state == Running {
      assert IsRunning(k.s, o) && T(v, o).link == OnReady(T(k.s, o).prio);
    }
  }

  lemma OrdinaryKeepsStanding(k: Kernel, u: Kernel, actor: Option<Tid>, r: Status, waits: bool, o: Tid, m: nat)
    requires Ordinarily(k, u, actor, r, waits) && OwnersUp(k) && Owns(k, o, m)
    ensures Standing(u.s, o) == Standing(k.s, o)
  {
    hide Ordinarily, OwnersUp, Owns, T, W;
    OrdinarilySteady(k, u, actor, r, waits);
  }

  lemma LockKeepsStanding(k: Kernel, m: nat, timeout: nat, rules: Rules, o: Tid, i: nat)
    requires Inv(k) && Enabled(k, Lock(m, timeout)) && Disciplined(k, Lock(m, timeout), rules) && OwnersUp(k)
    requires Owns(k, o, i)
    ensures Standing(MutexLock(k, m, timeout).0.s, o) == Standing(k.s, o)
  {
    hide Inv, OwnersUp, HoldsNone, BlockOn, Boost, T;
    SelfFacts(k);
    if MutexLock(k, m, timeout).1 == Waits {
      assert o != Self(k) by { HolderOwnsNothing(k); }
      MutexesOfInv(k);
      assert AllPlaced(k.s);
      OffIfRunning(k.s);
      hide MutexLock, Linked, AllPlaced, Placed, MutexesOk, WaitsSorted, R, W;
      var w, u := LockWaitView(k, m, timeout);
    }
  }

  lemma UnlockKeepsStanding(k: Kernel, m: nat, o: Tid, i: nat)
    requires Inv(k) && Enabled(k, Unlock(m)) && OwnersUp(k) && Inherits(k) && WaitsSorted(k.s) && Owns(k, o, i)
    requires Owns(MutexUnlock(k, m).0, o, i)
    ensures Standing(MutexUnlock(k, m).0.s, o) == Standing(k.s, o)
  {
    hide Inv, OwnersUp, Inherits, WaitsSorted, HoldsNone, WakeWaiter, T, W;
    SelfFacts(k);
    if k.mutexes[m].owner == Some(Self(k)) && (k.mutexes[m].depth + U32 - 1) % U32 == 0 {
      hide MutexUnlock, R;
      var w, u := UnlockView(k, m);
      HandedOverHolders(k, u, m, w);
      assert o != Self(k) by {
        if o == Self(k) { OneMutexEach(k, o, i, m); }
      }
      assert w != Some(o);
    }
  }

  lemma OneMutexEach(k: Kernel, o: Tid, m: nat, n: nat)
    requires OwnersUp(k) && Owns(k, o, m) && Owns(k, o, n)
    ensures m == n
  {}

  /** No step lowers the standing of a task that owns the mutex before it and after it. */
  lemma NextKeepsStanding(k: Kernel, step: Step, rules: Rules, o: Tid, m: nat)
    requires Inv(k) && Enabled(k, step) && Disciplined(k, step, rules) && Inh(k, rules)
    requires Owns(k, o, m) && Owns(Next(k, step).0, o, m)
    ensures Standing(Next(k, step).0.s, o) >= Standing(k.s, o)
  {
    hide Inv, Inh, Ordinarily, OwnersUp, Inherits, LevelsOk, WaitsSorted, HoldsNone, Owns, MutexLock, MutexUnlock,
         MutexLockReturn, SelectNext, ResumeTask, Standing, T;
    InhOwners(k, rules);
    match step
    case Switch => OwnerRuns(k, o, m); SwitchKeepsStanding(k, o);
    case Suspend(t) => var s := SuspendEffect(k.s, t); OthersStand(k, s, o, m, t);
    case Resume(t) => OwnerRuns(k, o, m); var s := ResumeEffect(k.s, t); OthersStand(k, s, o, m, t);
    case Lock(i, timeout) => LockKeepsStanding(k, i, timeout, rules, o, m);
    case LockReturn(i) => LockReturnKeepsStanding(k, i, o, m);
    case Unlock(i) => UnlockKeepsStanding(k, i, o, m);
    case _ => RestKeepsStanding(k, step, rules, o, m);
  }

  lemma LockReturnKeepsStanding(k: Kernel, i: nat, o: Tid, m: nat)
    requires Inv(k) && Enabled(k, LockReturn(i)) && OwnersUp(k) && Owns(k, o, m)
    ensures Standing(Next(k, LockReturn(i)).0.s, o) == Standing(k.s, o)
  {
    hide Inv, Ordinarily, OwnersUp, Owns, MutexLockReturn, Standing, T;
    LockReturnIsOrdinarily(k, i);
    OrdinaryKeepsStanding(k, Next(k, LockReturn(i)).0, Some(Self(k)), OK, false, o, m);
  }

  /** Whoever is suspended or resumed owns nothing. */
  lemma OthersStand(k: Kernel, u: Sched, o: Tid, m: nat, t: Tid)
    requires OwnersUp(k) && Owns(k, o, m) && (HoldsNone(k, t) || T(k.s, t).state == Suspended || u == k.s)
    requires forall x :: x != t ==> T(u, x) == T(k.s, x)
    ensures Standing(u, o) == Standing(k.s, o)
  {}

  lemma RestKeepsStanding(k: Kernel, step: Step, rules: Rules, o: Tid, m: nat)
    requires Inv(k) && Enabled(k, step) && Disciplined(k, step, rules) && OwnersUp(k) && Owns(k, o, m)
    requires NoMutex(step) && !Rearranges(step)
    ensures Standing(Next(k, step).0.s, o) == Standing(k.s, o)
  {
    hide Inv, Ordinarily, OwnersUp, HoldsNone, Owns, Standing, Enabled, Next;
    OrdinaryIsOrdinarily(k, step);
    OrdinaryKeepsStanding(k, Next(k, step).0, Actor(k, step), Answer(step), Next(k, step).1 == Waits, o, m);
  }

  lemma OwnerRuns(k: Kernel, o: Tid, m: nat)
    requires Inv(k) && OwnersUp(k) && Owns(k, o, m)
    ensures o in k.s.tasks && (T(k.s, o).state == Ready || T(k.s, o).state == Running)
  {}

  // ---- runs ------------------------------------------------------------------------------

  /** `o` owns `m` from the first state of the run to the last. */
  predicate OwnsThroughout(k: Kernel, steps: seq<Step>, o: Tid, m: nat)
    requires Legal(k, steps)
    decreases |steps|
  {
    Owns(k, o, m) && (steps == [] || OwnsThroughout(Next(k, steps[0]).0, steps[1..], o, m))
  }

  /** Every switch of the run picks from a list at `level` or above, a task of at least that priority. */
  predicate NeverBelow(k: Kernel, steps: seq<Step>, level: nat)
    requires Legal(k, steps)
    decreases |steps|
  {
    steps != [] ==>
      && (steps[0] == Switch ==> TopLevel(Requeued(k.s)) >= level && T(SelectNext(k.s), Chosen(k.s)).prio >= level)
      && NeverBelow(Next(k, steps[0]).0, steps[1..], level)
  }

  lemma {:induction false} StandingHolds(k: Kernel, steps: seq<Step>, rules: Rules, o: Tid, m: nat, level: nat)
    requires Inv(k) && Inh(k, rules) && Legal(k, steps) && DisciplinedRun(k, steps, rules)
    requires OwnsThroughout(k, steps, o, m) && Standing(k.s, o) >= level
    ensures NeverBelow(k, steps, level) && Standing(Run(k, steps).s, o) >= level
    decreases |steps|
  {
    if steps != [] {
      if steps[0] == Switch {
        hide Inv, CanDispatch, OwnersUp, Inherits, WaitsSorted, LevelsOk, Exact, StaleExcused, SelectNext, Chosen,
             TopLevel, Requeued, Standing, Owns, T;
        OwnerRuns(k, o, m);
        SwitchPicksNoLower(k, o);
      }
      StandingTail(k, steps, rules, o, m, level);
    }
  }

  lemma {:induction false} StandingTail(k: Kernel, steps: seq<Step>, rules: Rules, o: Tid, m: nat, level: nat)
    requires Inv(k) && Inh(k, rules) && Legal(k, steps) && DisciplinedRun(k, steps, rules) && steps != []
    requires OwnsThroughout(k, steps, o, m) && Standing(k.s, o) >= level
    ensures NeverBelow(Next(k, steps[0]).0, steps[1..], level)
    ensures Standing(Run(Next(k, steps[0]).0, steps[1..]).s, o) >= level
    decreases |steps|, 0
  {
    hide Inv, Inh, Enabled, Next, Disciplined, Owns, Standing, CanDispatch, TopLevel, Requeued, SelectNext, Chosen, T;
    assert OwnsThroughout(Next(k, steps[0]).0, steps[1..], o, m);
    assert Owns(Next(k, steps[0]).0, o, m);
    NextKeepsStanding(k, steps[0], rules, o, m);
    NextKeeps(k, steps[0]);
    NextKeepsInh(k, steps[0], rules);
    StandingHolds(Next(k, steps[0]).0, steps[1..], rules, o, m, level);
  }

  /**
   * Bounded inversion: from any reachable point of a disciplined run, and for as long as `o` owns `m`,
   * every switch goes to a task at or above where `o` stands. Once `o` has been dispatched, that is
   * its inherited priority: nothing below any of its waiters runs until it unlocks.
   */
  lemma BoundedInversion(k: Kernel, before: seq<Step>, after: seq<Step>, rules: Rules, o: Tid, m: nat)
    requires Boot(k) && Legal(k, before) && DisciplinedRun(k, before, rules)
    requires Legal(Run(k, before), after) && DisciplinedRun(Run(k, before), after, rules)
    requires OwnsThroughout(Run(k, before), after, o, m)
    ensures var u := Run(k, before);
      && NeverBelow(u, after, Standing(u.s, o))
      && (T(u.s, o).state == Running ==>
            Standing(u.s, o) >= T(u.s, o).base && forall w ::
              w in W(u.s, MutexWaiters(m)) ==> Standing(u.s, o) >= T(u.s, w).prio)
  {
    hide Boot, Inv, Inh, Legal, DisciplinedRun, NeverBelow, OwnsThroughout, Run;
    BootInv(k);
    BootInh(k, rules);
    RunKeepsInh(k, before, rules);
    var u := Run(k, before);
    StandingHolds(u, after, rules, o, m, Standing(u.s, o));
    if T(u.s, o).state == Running {
      OwnsNow(u, after, o, m);
      InhOwners(u, rules);
      OwnerRuns(u, o, m);
      MutexesOfInv(u);
      OffIfRunning(u.s);
    }
  }

  lemma OwnsNow(k: Kernel, steps: seq<Step>, o: Tid, m: nat)
    requires Legal(k, steps) && OwnsThroughout(k, steps, o, m)
    ensures Owns(k, o, m)
  {}

  // ---- where the mechanism stops short ---------------------------------------------------

  /**
   * In any state the next switch goes to a task of lower priority than `o`, which could run, exactly if the head of the
   * highest list that has a task is of lower priority. Then `o` is READY on a list below its priority, and everybody
   * who could run stands below that priority.
   */
  lemma InversionExactly(k: Kernel, o: Tid)
    requires Inv(k) && LevelsBelow(k.s) && CanDispatch(k.s) && Runnable(k.s, o)
    ensures T(k.s, Chosen(k.s)).prio < T(k.s, o).prio <==>
        exists t :: NextUp(k.s, t) && T(k.s, t).prio < T(k.s, o).prio
    ensures T(k.s, Chosen(k.s)).prio < T(k.s, o).prio ==>
      && T(k.s, o).state == Ready && Standing(k.s, o) < T(k.s, o).prio
      && forall t :: Runnable(k.s, t) ==> Standing(k.s, t) < T(k.s, o).prio
  {
    StandsBelowPrio(k);
    hide Inv, CanDispatch, Chosen, Standing, LevelsBelow, T, R;
    DispatchExactly(k);
    assert NextUp(k.s, Chosen(k.s));
    forall t | NextUp(k.s, t) ensures t == Chosen(k.s) { OneNextUp(k.s, t, Chosen(k.s)); }
  }

  lemma OneNextUp(s: Sched, t: Tid, x: Tid)
    requires NextUp(s, t) && NextUp(s, x)
    ensures t == x
  {
    assert Standing(s, t) == Standing(s, x);
  }

  lemma StandsBelowPrio(k: Kernel)
    requires Inv(k) && LevelsBelow(k.s)
    ensures forall t :: Runnable(k.s, t) ==> Standing(k.s, t) <= T(k.s, t).prio
    ensures forall t :: Runnable(k.s, t) && Standing(k.s, t) < T(k.s, t).prio ==> T(k.s, t).state == Ready
  {
    MutexesOfInv(k);
    OffIfRunning(k.s);
    hide Inv, Linked, AllPlaced, T;
  }

  /** The head of the highest list that has a task, once `gone` is out of the way. */
  ghost predicate NextWithout(s: Sched, gone: Tid, t: Tid) {
    && Runnable(s, t) && t != gone && (forall x :: Runnable(s, x) && x != gone ==> Standing(s, x) <= Standing(s, t))
    && R(s, Standing(s, t)) != [] && t == R(s, Standing(s, t))[0]
  }

  /** Priority the owner has once the caller waits for it. */
  function Inherited(k: Kernel, m: nat): nat
    requires m in k.mutexes && k.mutexes[m].owner.Some?
  {
    Max(T(k.s, Self(k)).prio, T(k.s, k.mutexes[m].owner.value).prio)
  }

  /**
   * From the lock that waits for a READY owner to the switch it asks for, told from the state before the lock: the
   * owner is passed over by a lower priority exactly if another task heads the highest list that is left, and its
   * priority is below the one the owner inherits. Then nobody left stands as high as that.
   */
  lemma InversionAfterLock(k: Kernel, m: nat, timeout: nat)
    requires Inv(k) && LevelsBelow(k.s) && Enabled(k, Lock(m, timeout)) && Blocks(k, Lock(m, timeout))
    requires T(k.s, k.mutexes[m].owner.value).state == Ready
    ensures var u, o, p := Next(k, Lock(m, timeout)).0.s, k.mutexes[m].owner.value, Inherited(k, m);
      && (CanDispatch(u) <==> !Uncovered(k.s, BitsWithout(k.s, Self(k)), Self(k)))
      && T(u, o).prio == p
      && (CanDispatch(u) ==> (T(u, Chosen(u)).prio < p <==>
            exists t :: t != o && NextWithout(k.s, Self(k), t) && T(k.s, t).prio < p))
      && (CanDispatch(u) && T(u, Chosen(u)).prio < p ==>
            forall t :: Runnable(k.s, t) && t != Self(k) ==> Standing(k.s, t) < p)
  {
    var step, o := Lock(m, timeout), k.mutexes[m].owner.value;
    var n := Next(k, step).0;
    hide Inv, LevelsBelow, Enabled, Next, Blocks, CanDispatch, Chosen, Covered, Uncovered, BitsWithout, Runnable,
         Standing, NextUp, NextWithout, Inherited, T, R;
    NextKeeps(k, step);
    NextKeepsLevels(k, step);
    BlockStrands(k, step);
    DispatchExactly(n);
    LockedOut(k, m, timeout);
    if CanDispatch(n.s) { PassedOver(k.s, n, Self(k), o); }
  }

  lemma PassedOver(s: Sched, n: Kernel, self: Tid, o: Tid)
    requires Inv(n) && LevelsBelow(n.s) && CanDispatch(n.s) && Runnable(n.s, o) && T(n.s, o).state == Ready
    requires forall t :: Runnable(n.s, t) <==> Runnable(s, t) && t != self
    requires forall t :: Runnable(n.s, t) ==> Standing(n.s, t) == Standing(s, t)
    requires forall t :: NextUp(n.s, t) <==> NextWithout(s, self, t)
    requires forall t :: t != o ==> T(n.s, t).prio == T(s, t).prio
    ensures var p := T(n.s, o).prio;
      && (T(n.s, Chosen(n.s)).prio < p <==> exists t :: t != o && NextWithout(s, self, t) && T(s, t).prio < p)
      && (T(n.s, Chosen(n.s)).prio < p ==> forall t :: Runnable(s, t) && t != self ==> Standing(s, t) < p)
  {
    hide Inv, LevelsBelow, CanDispatch, Chosen, Runnable, Standing, NextUp, NextWithout, T, R;
    InversionExactly(n, o);
    SameNextUp(s, n.s, self, o, T(n.s, o).prio);
  }

  lemma SameNextUp(s: Sched, u: Sched, self: Tid, o: Tid, p: nat)
    requires T(u, o).prio == p && forall t :: t != o ==> T(u, t).prio == T(s, t).prio
    requires forall t :: NextUp(u, t) <==> NextWithout(s, self, t)
    ensures (exists t :: NextUp(u, t) && T(u, t).prio < p) <==>
        exists t :: t != o && NextWithout(s, self, t) && T(s, t).prio < p
  {
    hide NextUp, NextWithout, T;
    if t :| NextUp(u, t) && T(u, t).prio < p { assert NextWithout(s, self, t); }
    if t :| t != o && NextWithout(s, self, t) && T(s, t).prio < p { assert NextUp(u, t); }
  }

  /** What the lock leaves of the runnable tasks. */
  lemma LockedOut(k: Kernel, m: nat, timeout: nat)
    requires Inv(k) && Enabled(k, Lock(m, timeout)) && Blocks(k, Lock(m, timeout))
    requires T(k.s, k.mutexes[m].owner.value).state == Ready
    ensures var u, o := Next(k, Lock(m, timeout)).0.s, k.mutexes[m].owner.value;
      && Runnable(u, o) && T(u, o).state == Ready && T(u, o).prio == Inherited(k, m)
      && (forall t :: Runnable(u, t) <==> Runnable(k.s, t) && t != Self(k))
      && (forall t :: Runnable(u, t) ==> Standing(u, t) == Standing(k.s, t))
      && (forall t :: NextUp(u, t) <==> NextWithout(k.s, Self(k), t))
      && (forall t :: t != o ==> T(u, t).prio == T(k.s, t).prio)
  {
    hide Inv, Linked, AllPlaced, Enabled, Next, NextUp, NextWithout, T, R;
    MutexesOfInv(k);
    OffIfRunning(k.s);
    var u := BlockEffect(k, Lock(m, timeout));
    var o := k.mutexes[m].owner.value;
    assert Owns(k, o, m);
    SameHeads(k.s, u, Self(k));
  }

  lemma SameHeads(s: Sched, u: Sched, gone: Tid)
    requires forall t :: Runnable(u, t) <==> Runnable(s, t) && t != gone
    requires forall t :: Runnable(u, t) ==> Standing(u, t) == Standing(s, t)
    requires forall n :: R(u, n) == R(s, n)
    requires forall t :: IsRunning(u, t) ==> t == gone
    ensures forall t :: NextUp(u, t) <==> NextWithout(s, gone, t)
  {
    hide Runnable, Standing, R;
  }
}

/**
 * When `select_next` finds a task, and which one: over every step and every run, whatever the tasks do. A bit of the
 * bitmap can outlive its list; what matters is who stands at or above it.
 */
module Dispatch {
  import opened Base
  import opened Sequences
  import opened Scheduler
  import opened Membership
  import opened Evolution
  import opened Kernel
  import opened Invariants
  import opened Effects

  predicate Runnable(s: Sched, t: Tid) {
    t in s.tasks && (T(s, t).state == Ready || IsRunning(s, t))
  }

  /** The level a runnable task competes at: its list if READY, its priority if RUNNING. */
  function Standing(s: Sched, t: Tid): nat {
    match T(s, t).link
    case OnReady(n) => n
    case _ => if T(s, t).state == Running then T(s, t).prio else 0
  }

  // ---- one state -------------------------------------------------------------------------

  /** The task `select_next` takes: at the head of the highest list, or the running one if it is alone up there. */
  ghost predicate NextUp(s: Sched, t: Tid) {
    && Runnable(s, t) && (forall x :: Runnable(s, x) ==> Standing(s, x) <= Standing(s, t))
    && if R(s, Standing(s, t)) == [] then IsRunning(s, t) else t == R(s, Standing(s, t))[0]
  }

  /** Where each runnable task is after the running one has been put back on its list. */
  lemma RequeuedView(k: Kernel) returns (v: Sched)
    requires Inv(k)
    ensures v == Requeued(k.s) && v.tasks.Keys == k.s.tasks.Keys
    ensures forall t :: Runnable(k.s, t) <==> t in v.tasks && T(v, t).link.OnReady?
    ensures forall t :: Runnable(k.s, t) ==> T(v, t).link == OnReady(Standing(k.s, t)) && T(v, t).prio == T(k.s, t).prio
    ensures forall n, t {:trigger t in R(v, n)} :: t in R(v, n) <==> Runnable(k.s, t) && Standing(k.s, t) == n
    ensures forall n :: R(k.s, n) <= R(v, n) && |R(v, n)| <= |R(k.s, n)| + 1
    ensures k.s.bits <= v.bits && forall n :: n in v.bits ==> n < MAX_PRIORITIES
    ensures forall n :: n in v.bits && n !in k.s.bits ==> Runnable(k.s, Self(k)) && Standing(k.s, Self(k)) == n
  {
    hide Inv, Linked, AllPlaced, Requeued, T, R;
    MutexesOfInv(k);
    CurrentExists(k.s);
    OffIfRunning(k.s);
    RequeuedLinked(k.s);
    v := RequeuedFrame(k.s);
    BitsOf(v);
    OffIfRunning(v);
  }

  /** `select_next` finds a task exactly if one can run, and at or above every set bit one can. */
  ghost predicate Covered(s: Sched) {
    && (exists t :: Runnable(s, t))
    && forall n :: n in s.bits ==> exists t :: Runnable(s, t) && Standing(s, t) >= n
  }

  lemma DispatchExactly(k: Kernel)
    requires Inv(k)
    ensures CanDispatch(k.s) <==> Covered(k.s)
    ensures CanDispatch(k.s) ==> NextUp(k.s, Chosen(k.s))
  {
    hide Inv, Runnable, Standing, NextUp, Covered, Requeued, TopLevel, T, R;
    var v := RequeuedView(k);
    var h := TopLevel(v);
    StandingBits(k, v);
    if v.bits != {} {
      var l :| l in v.bits;
      TopOfBits(v, l);
      if R(v, h) != [] {
        HeadIsNext(k, v, h);
        assert Covered(k.s) by { NextUpCovers(k.s, R(v, h)[0], h); }
      }
    }
    if Covered(k.s) {
      var t := CoveredTop(k.s, v, h);
      assert t in R(v, h);
    }
  }

  lemma NextUpCovers(s: Sched, t: Tid, h: nat)
    requires Runnable(s, t) && Standing(s, t) == h && forall n :: n in s.bits ==> n <= h
    ensures Covered(s)
  {}

  lemma CoveredTop(s: Sched, v: Sched, h: nat) returns (t: Tid)
    requires Covered(s) && (forall n :: n in v.bits ==> n <= h) && (v.bits != {} ==> h in v.bits)
    requires forall t :: Runnable(s, t) ==> Standing(s, t) in v.bits
    requires forall n :: n in v.bits && n !in s.bits ==> exists t :: Runnable(s, t) && Standing(s, t) == n
    ensures Runnable(s, t) && Standing(s, t) == h && v.bits != {}
  {
    hide Runnable, Standing;
    t :| Runnable(s, t);
    assert Standing(s, t) in v.bits;
    if h in s.bits { t :| Runnable(s, t) && Standing(s, t) >= h; } else { t :| Runnable(s, t) && Standing(s, t) == h; }
  }

  lemma StandingBits(k: Kernel, v: Sched)
    requires Inv(k) && v == Requeued(k.s)
    ensures forall t :: Runnable(k.s, t) ==> Standing(k.s, t) in v.bits
  {
    hide Inv, Linked, AllPlaced, Runnable, Standing, Requeued, T, R;
    MutexesOfInv(k);
    RequeuedLinked(k.s);
    BitsOf(v);
    var _ := RequeuedView(k);
  }

  lemma HeadIsNext(k: Kernel, v: Sched, h: nat)
    requires Inv(k) && v == Requeued(k.s) && R(v, h) != [] && forall t :: Runnable(k.s, t) ==> Standing(k.s, t) <= h
    ensures NextUp(k.s, R(v, h)[0]) && Runnable(k.s, R(v, h)[0]) && Standing(k.s, R(v, h)[0]) == h
  {
    hide Inv, Standing, Requeued, T, R;
    var _ := RequeuedView(k);
    var t := R(v, h)[0];
    assert t in R(v, h);
    if R(k.s, h) == [] { OnlyTheRunning(k, t); } else { assert R(k.s, h)[0] == t; }
  }

  lemma OnlyTheRunning(k: Kernel, t: Tid)
    requires Inv(k) && Runnable(k.s, t) && R(k.s, Standing(k.s, t)) == []
    ensures IsRunning(k.s, t)
  {
    hide Inv, Linked, AllPlaced, T, R;
    MutexesOfInv(k);
    OffIfRunning(k.s);
    BitsOf(k.s);
  }

  // ---- one step --------------------------------------------------------------------------

  /** A READY task is queued at its priority or below. */
  ghost predicate LevelsBelow(s: Sched) {
    forall t :: t in s.tasks && T(s, t).link.OnReady? ==> T(s, t).link.level <= T(s, t).prio
  }

  /** The bits that stay set when `t` leaves the ready lists. */
  function BitsWithout(s: Sched, t: Tid): set<nat> {
    var p := T(s, t).prio;
    if forall x | x in R(s, p) :: x == t then s.bits - {p} else s.bits
  }

  /** Without `gone`, nobody could run, or nobody at or above some bit of `bits`. */
  ghost predicate Uncovered(s: Sched, bits: set<nat>, gone: Tid) {
    || (forall t :: Runnable(s, t) ==> t == gone)
    || (exists n :: n in bits && forall t :: Runnable(s, t) && t != gone ==> Standing(s, t) < n)
  }

  /** Nobody is left at or above `n` when the owner is back at its base and the head waiter is READY. */
  ghost predicate Dropped(k: Kernel, m: nat, n: nat) {
    var s, q := k.s, W(k.s, MutexWaiters(m));
    && n > T(s, Self(k)).base && (q != [] ==> n > T(s, q[0]).prio)
    && forall t :: Runnable(s, t) && t != Self(k) ==> Standing(s, t) < n
  }

  /** The step that leaves `select_next` without a task, told from the state before it. */
  ghost predicate Strands(k: Kernel, step: Step) {
    var s, self := k.s, Self(k);
    match step
    case Unlock(m) => Releases(k, m) && (exists n :: n in s.bits && Dropped(k, m, n))
    case Suspend(t) => (T(s, t).state == Ready && Uncovered(s, BitsWithout(s, t), t))
                       || (T(s, t).state == Running && Uncovered(s, s.bits, t))
    case _ => Blocks(k, step) && Uncovered(s, BitsWithout(s, self), self)
  }

  /** Ready lists that only grow leave everybody runnable at his level; the running task's is its priority. */
  lemma GatheredView(k: Kernel, u: Kernel)
    requires Inv(k) && Inv(u) && Gathers(k.s, u.s)
    ensures forall t :: Runnable(k.s, t) ==> Runnable(u.s, t)
    ensures forall t :: Runnable(k.s, t) && T(u.s, t).prio >= T(k.s, t).prio ==> Standing(u.s, t) >= Standing(k.s, t)
    ensures forall n :: n in u.s.bits && n !in k.s.bits ==> exists t :: Runnable(u.s, t) && Standing(u.s, t) == n
  {
    MutexesOfInv(k);
    MutexesOfInv(u);
    OffIfRunning(k.s);
    OffIfRunning(u.s);
    BitsOf(u.s);
    hide Inv, Linked, AllPlaced, T, R;
    forall n | n in u.s.bits && n !in k.s.bits ensures exists t :: Runnable(u.s, t) && Standing(u.s, t) == n {
      assert R(u.s, n)[0] in R(u.s, n);
      assert Runnable(u.s, R(u.s, n)[0]);
    }
  }

  lemma StillCovered(s: Sched, u: Sched)
    requires Covered(s)
    requires forall t :: Runnable(s, t) ==> Runnable(u, t) && Standing(u, t) >= Standing(s, t)
    requires forall n :: n in u.bits && n !in s.bits ==> exists t :: Runnable(u, t) && Standing(u, t) == n
    ensures Covered(u)
  {
    hide Runnable, Standing;
    forall n | n in u.bits ensures exists t :: Runnable(u, t) && Standing(u, t) >= n {
      if n in s.bits { var t :| Runnable(s, t) && Standing(s, t) >= n; assert Runnable(u, t); }
      else { var t :| Runnable(u, t) && Standing(u, t) == n; }
    }
  }

  /** A step that only fills ready lists, and restores no priority, strands nobody. */
  lemma GatheringKeepsCover(k: Kernel, step: Step)
    requires Inv(k) && Enabled(k, step) && OnlyGathers(k, step) && !(step.Unlock? && Releases(k, step.m))
        && Covered(k.s)
    ensures Covered(Next(k, step).0.s)
  {
    hide Inv, Enabled, Next, OnlyGathers, Releases, Gathers, Standing, Covered, T;
    var u := GatherEffect(k, step);
    NextKeeps(k, step);
    GatheredView(k, Next(k, step).0);
    PriosStay(k, Next(k, step).0);
    StillCovered(k.s, u);
  }

  lemma PriosStay(k: Kernel, u: Kernel)
    requires Gathers(k.s, u.s) && forall t :: t in k.s.tasks && IsRunning(k.s, t) ==> T(u.s, t).prio == T(k.s, t).prio
    ensures forall t :: Runnable(k.s, t) ==> T(u.s, t).prio >= T(k.s, t).prio
  {}

  /**
   * An unlock that lets go strands exactly if neither its caller's base, nor the task it wakes, nor another reaches a
   * set bit.
   */
  lemma ReleaseStrands(k: Kernel, m: nat)
    requires Inv(k) && Enabled(k, Unlock(m)) && Releases(k, m) && Covered(k.s)
    ensures Covered(MutexUnlock(k, m).0.s) <==> forall n :: n in k.s.bits ==> !Dropped(k, m, n)
  {
    hide Inv, Linked, AllPlaced, TaskCode, MutexUnlock, Releases, T, R, W;
    SelfFacts(k);
    MutexesOfInv(k);
    OffIfRunning(k.s);
    var u, w := UnlockEffect(k, m);
    assert forall t: Tid :: Runnable(u, t) <==> Runnable(k.s, t) || w == Some(t);
    assert forall t :: Runnable(k.s, t) && t != Self(k) ==> Standing(u, t) == Standing(k.s, t);
    assert Standing(u, Self(k)) == T(k.s, Self(k)).base && Runnable(u, Self(k));
    assert w.Some? ==> Standing(u, w.value) == T(k.s, w.value).prio;
    hide Runnable, Standing;
    forall n | n in k.s.bits ensures Dropped(k, m, n) <==> forall t :: Runnable(u, t) ==> Standing(u, t) < n {}
  }

  /** The task that leaves was one of the runnable ones; the others stand where they stood. */
  lemma LeavingStrands(s: Sched, u: Sched, gone: Tid)
    requires forall t :: Runnable(u, t) <==> Runnable(s, t) && t != gone
    requires forall t :: Runnable(u, t) ==> Standing(u, t) == Standing(s, t)
    ensures Covered(u) <==> !Uncovered(s, u.bits, gone)
  {
    hide Runnable, Standing;
    if !Uncovered(s, u.bits, gone) {
      forall n | n in u.bits ensures exists t :: Runnable(u, t) && Standing(u, t) >= n {
        assert !(forall t :: Runnable(s, t) && t != gone ==> Standing(s, t) < n);
      }
    }
  }

  lemma BlockStrands(k: Kernel, step: Step)
    requires Inv(k) && Enabled(k, step) && Blocks(k, step)
    ensures Covered(Next(k, step).0.s) <==> !Uncovered(k.s, BitsWithout(k.s, Self(k)), Self(k))
  {
    hide Inv, Linked, AllPlaced, Enabled, Next, Blocks, Covered, Uncovered, T, R;
    MutexesOfInv(k);
    OffIfRunning(k.s);
    BitsOf(k.s);
    var u := BlockEffect(k, step);
    assert u.bits == BitsWithout(k.s, Self(k)) by { LoneMember(k.s, Self(k)); }
    LeavingStrands(k.s, u, Self(k));
  }

  lemma LoneMember(s: Sched, t: Tid)
    requires !T(s, t).link.OnReady? && forall n, x {:trigger x in R(s, n)} :: x in R(s, n) ==>
        T(s, x).link == OnReady(n)
    ensures var p := T(s, t).prio; BitsWithout(s, t) == if R(s, p) == [] then s.bits - {p} else s.bits
  {
    hide T, R;
    var q := R(s, T(s, t).prio);
    if q != [] { assert q[0] in q; }
  }

  lemma SuspendStrands(k: Kernel, t: Tid)
    requires Inv(k) && Enabled(k, Suspend(t)) && Covered(k.s)
    ensures Covered(SuspendTask(k.s, t)) <==> !Strands(k, Suspend(t))
  {
    hide Inv, Linked, AllPlaced, SuspendTask, Covered, Uncovered, BitsWithout, TaskCode, T, R, W, Without;
    MutexesOfInv(k);
    OffIfRunning(k.s);
    BitsOf(k.s);
    var u := SuspendEffect(k.s, t);
    if T(k.s, t).state == Ready {
      BitsAfter(k.s, u, t);
      LeavingStrands(k.s, u, t);
    } else if T(k.s, t).state == Running {
      LeavingStrands(k.s, u, t);
    } else { StaysPut(k.s, t); }
  }

  lemma StaysPut(s: Sched, t: Tid)
    requires T(s, t).state == Blocked || T(s, t).state == Suspended
    ensures SuspendTask(s, t) == s
  {}

  lemma BitsAfter(s: Sched, u: Sched, t: Tid)
    requires Linked(s) && t in s.tasks
    requires forall n :: R(u, n) == if T(s, t).link == OnReady(n) then Without(R(s, n), t) else R(s, n)
    requires u.bits == if R(u, T(s, t).prio) == [] then s.bits - {T(s, t).prio} else s.bits
    ensures u.bits == BitsWithout(s, t)
  {
    BitsOf(s);
    assert NoDup(R(s, T(s, t).prio));
    hide Linked, T, R;
    var q := R(s, T(s, t).prio);
    if q != [] { assert q[0] in q; if |q| > 1 { assert q[1] in q; } }
  }

  /** A switch gives the processor to a task of at least the level it was picked from. */
  lemma SwitchCovers(k: Kernel)
    requires Inv(k) && LevelsBelow(k.s) && CanDispatch(k.s)
    ensures Covered(SelectNext(k.s))
  {
    MutexesOfInv(k);
    SomeBit(k.s);
    CurrentExists(k.s);
    hide Inv, Linked, AllPlaced, CanDispatch, SelectNext, Chosen, TopLevel, Requeued, Covered, T, R;
    var w := RequeuedView(k);
    var l :| l in w.bits;
    TopOfBits(w, l);
    var v, u := SelectNextFrame(k.s);
    var t := Chosen(k.s);
    var _ := RequeuedFrame(k.s);
    assert Runnable(u, t) && Standing(u, t) == T(k.s, t).prio >= TopLevel(v);
    NextUpCovers(u, t, T(k.s, t).prio);
  }

  lemma SomeBit(s: Sched)
    requires CanDispatch(s)
    ensures Requeued(s).bits != {}
  {}

  /**
   * From a state that can dispatch, a step leads to one that cannot exactly if it takes away the last runnable task
   * at or above some bit that stays set. No discipline is asked for.
   */
  lemma StrandsExactly(k: Kernel, step: Step)
    requires Inv(k) && LevelsBelow(k.s) && CanDispatch(k.s) && Enabled(k, step)
    ensures CanDispatch(Next(k, step).0.s) <==> !Strands(k, step)
  {
    hide Inv, LevelsBelow, CanDispatch, Covered, Uncovered, BitsWithout, Dropped, Releases, Blocks, Enabled, Next, T,
         W;
    DispatchExactly(k);
    NextKeeps(k, step);
    DispatchExactly(Next(k, step).0);
    if step == Switch { SwitchStrands(k); }
    else if step.Suspend? { SuspendStrandsNext(k, step.t); }
    else if Blocks(k, step) { BlockStrands(k, step); OnlyCallsBlock(k, step); }
    else if step.Unlock? && Releases(k, step.m) { ReleaseStrandsNext(k, step.m); }
    else { GatheringKeepsCover(k, step); }
  }

  lemma SwitchStrands(k: Kernel)
    requires Inv(k) && LevelsBelow(k.s) && Enabled(k, Switch)
    ensures Covered(Next(k, Switch).0.s) && !Strands(k, Switch)
  {
    hide Inv, CanDispatch, LevelsBelow, SelectNext, Covered;
    SwitchCovers(k);
  }

  lemma SuspendStrandsNext(k: Kernel, t: Tid)
    requires Inv(k) && Enabled(k, Suspend(t)) && Covered(k.s)
    ensures Covered(Next(k, Suspend(t)).0.s) <==> !Strands(k, Suspend(t))
  {
    hide Inv, TaskCode, SuspendTask, Covered, Strands;
    SuspendStrands(k, t);
  }

  lemma ReleaseStrandsNext(k: Kernel, m: nat)
    requires Inv(k) && Enabled(k, Unlock(m)) && Releases(k, m) && Covered(k.s)
    ensures Covered(Next(k, Unlock(m)).0.s) <==> !Strands(k, Unlock(m))
  {
    hide Inv, TaskCode, MutexUnlock, Releases, Dropped, Covered;
    ReleaseStrands(k, m);
  }

  lemma OnlyCallsBlock(k: Kernel, step: Step)
    requires Blocks(k, step)
    ensures !step.Unlock? && !step.Suspend?
  {}

  /** No READY task is ever queued above its priority. */
  lemma NextKeepsLevels(k: Kernel, step: Step)
    requires Inv(k) && LevelsBelow(k.s) && Enabled(k, step)
    ensures LevelsBelow(Next(k, step).0.s)
  {
    hide Inv, LevelsBelow, Blocks, Enabled, Next;
    if step == Switch { SwitchKeepsLevels(k); }
    else if step.Suspend? { SuspendKeepsLevels(k, step.t); }
    else if Blocks(k, step) { BlockKeepsLevels(k, step); }
    else { GatherKeepsLevels(k, step); }
  }

  lemma BlockKeepsLevels(k: Kernel, step: Step)
    requires Inv(k) && LevelsBelow(k.s) && Enabled(k, step) && Blocks(k, step)
    ensures LevelsBelow(Next(k, step).0.s)
  {
    hide Inv, Blocks, Enabled, Next, T, R;
    var u := BlockEffect(k, step);
  }

  lemma GatherKeepsLevels(k: Kernel, step: Step)
    requires Inv(k) && LevelsBelow(k.s) && Enabled(k, step) && OnlyGathers(k, step)
    ensures LevelsBelow(Next(k, step).0.s)
  {
    hide Inv, Linked, AllPlaced, OnlyGathers, Enabled, Next, Releases, T, R;
    NextKeeps(k, step);
    MutexesOfInv(k);
    MutexesOfInv(Next(k, step).0);
    OffIfRunning(k.s);
    OffIfRunning(Next(k, step).0.s);
    var u := GatherEffect(k, step);
  }

  lemma SwitchKeepsLevels(k: Kernel)
    requires Inv(k) && LevelsBelow(k.s) && Enabled(k, Switch)
    ensures LevelsBelow(Next(k, Switch).0.s)
  {
    hide Inv, CanDispatch, SelectNext, Chosen, TopLevel, Requeued, T, W;
    var t, v, u := SwitchView(k);
  }

  lemma SuspendKeepsLevels(k: Kernel, t: Tid)
    requires Inv(k) && LevelsBelow(k.s) && Enabled(k, Suspend(t))
    ensures LevelsBelow(Next(k, Suspend(t)).0.s)
  {
    hide Inv, SuspendTask, TaskCode, T, R, W, Without;
    var u := SuspendEffect(k.s, t);
  }

  // ---- runs ------------------------------------------------------------------------------

  /** `select_next` would find a task in every state of the run. */
  predicate AlwaysDispatches(k: Kernel, steps: seq<Step>)
    requires Legal(k, steps)
    decreases |steps|
  {
    CanDispatch(k.s) && (steps == [] || AlwaysDispatches(Next(k, steps[0]).0, steps[1..]))
  }

  ghost predicate NeverStrands(k: Kernel, steps: seq<Step>)
    requires Legal(k, steps)
    decreases |steps|
  {
    steps != [] ==> !Strands(k, steps[0]) && NeverStrands(Next(k, steps[0]).0, steps[1..])
  }

  lemma {:induction false} DispatchThroughout(k: Kernel, steps: seq<Step>)
    requires Inv(k) && LevelsBelow(k.s) && CanDispatch(k.s) && Legal(k, steps)
    ensures AlwaysDispatches(k, steps) <==> NeverStrands(k, steps)
    decreases |steps|
  {
    if steps != [] {
      hide Inv, LevelsBelow, CanDispatch, Strands, Enabled, Next;
      StrandsExactly(k, steps[0]);
      NextKeeps(k, steps[0]);
      NextKeepsLevels(k, steps[0]);
      if CanDispatch(Next(k, steps[0]).0.s) { DispatchThroughout(Next(k, steps[0]).0, steps[1..]); }
      else { assert !AlwaysDispatches(Next(k, steps[0]).0, steps[1..]); }
    }
  }

  lemma BootDispatches(k: Kernel)
    requires Boot(k)
    ensures LevelsBelow(k.s) && CanDispatch(k.s)
  {
    BootInv(k);
    assert R(k.s, 0) == [IDLE] && k.s.bits == {0} && forall t :: t in k.s.tasks ==> t == IDLE;
    assert Runnable(k.s, IDLE) && Standing(k.s, IDLE) == 0;
    DispatchExactly(k);
  }

  /** Whatever tasks and interrupts do from boot: `select_next` always finds a task exactly if no step strands it. */
  lemma DispatchSafeExactly(k: Kernel, steps: seq<Step>)
    requires Boot(k) && Legal(k, steps)
    ensures AlwaysDispatches(k, steps) <==> NeverStrands(k, steps)
  {
    hide Boot, Inv, LevelsBelow, CanDispatch, Legal, AlwaysDispatches, NeverStrands;
    BootInv(k);
    BootDispatches(k);
    DispatchThroughout(k, steps);
  }
}

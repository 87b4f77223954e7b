/**
 * How long a boost lasts when locks have timeouts: an owner's priority is exactly what it inherits until a tick times
 * out the last waiter it has it from.
 */
module Boosts {
  import opened Base
  import opened Sequences
  import opened Scheduler
  import opened Membership
  import opened Ticking
  import opened Evolution
  import opened Kernel
  import opened Invariants
  import opened Effects
  import opened Inheritance

  /** Every owner runs at the highest of its base priority and its waiters' priorities. */
  ghost predicate AllInherit(k: Kernel) {
    forall o, m :: Owns(k, o, m) ==> IsInherited(k, o, m, T(k.s, o).prio)
  }

  /** The tick that times out every waiter whose priority an owner above its base has. */
  ghost predicate Overstays(k: Kernel, step: Step) {
    step == SysTick && exists o, m :: Owns(k, o, m) && LosesReason(k, o, m)
  }

  ghost predicate LosesReason(k: Kernel, o: Tid, m: nat) {
    && T(k.s, o).prio > T(k.s, o).base
    && forall w :: w in W(k.s, MutexWaiters(m)) && T(k.s, w).prio == T(k.s, o).prio ==>
         w in k.s.delayed && Due(Advanced(k.s), w)
  }

  /** Owners, waiters and priorities are as before. */
  ghost predicate SameReasons(k: Kernel, u: Kernel) {
    && (forall o, m :: Owns(u, o, m) <==> Owns(k, o, m))
    && (forall o, m :: Owns(k, o, m) ==> T(u.s, o).prio == T(k.s, o).prio && T(u.s, o).base == T(k.s, o).base)
    && SameWaiters(k, u)
    && (forall m, w {:trigger w in W(k.s, MutexWaiters(m))} ::
          w in W(k.s, MutexWaiters(m)) ==> T(u.s, w).prio == T(k.s, w).prio)
  }

  lemma SameReasonsKeep(k: Kernel, u: Kernel)
    requires SameReasons(k, u) && AllInherit(k)
    ensures AllInherit(u)
  {
    hide Owns, T, W;
    forall o, m | Owns(u, o, m) ensures IsInherited(u, o, m, T(u.s, o).prio) {
      assert IsInherited(k, o, m, T(k.s, o).prio);
    }
  }

  /** Between ticks a mutex waiter is woken only by the unlock of its mutex. */
  lemma WaiterStays(k: Kernel, step: Step, m: nat, w: Tid)
    requires Inv(k) && Enabled(k, step) && NoMutex(step) && !Rearranges(step) && step != SysTick
    requires w in W(k.s, MutexWaiters(m))
    ensures var u := Next(k, step).0.s; T(u, w) == T(k.s, w) && w in W(u, MutexWaiters(m))
  {
    hide Inv, Linked, AllPlaced, ActorEvolves, ListsEvolve, PatientStay, SortedKept, Shrinks, Enabled, Next, T, W;
    MutexesOfInv(k);
    OrdinaryStep(k, step);
    WaiterIsBlocked(k.s, MutexWaiters(m));
    ActorIsNoWaiter(k, step, w);
    StillWaits(Next(k, step).0.s, w, m);
  }

  lemma ActorIsNoWaiter(k: Kernel, step: Step, w: Tid)
    requires Inv(k) && Enabled(k, step) && NoMutex(step) && !Rearranges(step) && T(k.s, w).state == Blocked
    ensures Actor(k, step) != Some(w)
  {
    hide Inv, Plain, TasksEvolve, ListsEvolve, PatientStay, SortedKept, Enabled, Next, T;
    OrdinaryStep(k, step);
  }

  lemma StillWaits(u: Sched, w: Tid, m: nat)
    requires Linked(u)
    ensures w in u.tasks && T(u, w).event == Some(MutexWaiters(m)) ==> w in W(u, MutexWaiters(m))
  {}

  lemma OrdinaryReasons(k: Kernel, step: Step)
    requires Inv(k) && Enabled(k, step) && NoMutex(step) && !Rearranges(step) && step != SysTick && OwnersUp(k)
    requires Next(k, step).1 == Waits ==> HoldsNone(k, Self(k))
    ensures SameReasons(k, Next(k, step).0)
  {
    hide Inv, Ordinarily, OwnersUp, HoldsNone, Enabled, Next, T, W;
    OrdinaryIsOrdinarily(k, step);
    OrdinarilySteady(k, Next(k, step).0, Actor(k, step), Answer(step), Next(k, step).1 == Waits);
    var u := Next(k, step).0;
    forall m, w {:trigger w in W(k.s, MutexWaiters(m))} | w in W(k.s, MutexWaiters(m))
      ensures T(u.s, w) == T(k.s, w) && w in W(u.s, MutexWaiters(m))
    {
      WaiterStays(k, step, m, w);
    }
  }

  lemma OrdinaryKeepReasons(k: Kernel, step: Step)
    requires Inv(k) && Enabled(k, step) && NoMutex(step) && !Rearranges(step) && step != SysTick && OwnersUp(k)
    requires (Next(k, step).1 == Waits ==> HoldsNone(k, Self(k))) && AllInherit(k)
    ensures AllInherit(Next(k, step).0)
  {
    hide Inv, OwnersUp, HoldsNone, SameReasons, AllInherit, Enabled, Next;
    OrdinaryReasons(k, step);
    SameReasonsKeep(k, Next(k, step).0);
  }

  lemma OneReason(k: Kernel, u: Kernel, due: set<Tid>, o: Tid, m: nat)
    requires IsInherited(k, o, m, T(k.s, o).prio) && due == set t | t in k.s.delayed && Due(Advanced(k.s), t)
    requires forall x :: T(u.s, x).prio == T(k.s, x).prio && T(u.s, x).base == T(k.s, x).base
    requires W(u.s, MutexWaiters(m)) == Remaining(W(k.s, MutexWaiters(m)), due)
    ensures IsInherited(u, o, m, T(u.s, o).prio) <==> !LosesReason(k, o, m)
  {
    hide Due, Advanced, Remaining, T, W;
  }

  lemma TickReasons(k: Kernel)
    requires Inv(k) && AllInherit(k)
    ensures AllInherit(k.(s := Tick(k.s))) <==> !Overstays(k, SysTick)
  {
    MutexesOfInv(k);
    hide Inv, Linked, AllPlaced, MutexesOk, Tick, Advanced, Due, DueAt, Remaining, IsInherited, LosesReason, T, R, W;
    var s, due := TickFrame(k.s);
    var u := k.(s := s);
    assert forall o, m :: Owns(u, o, m) <==> Owns(k, o, m);
    forall o, m | Owns(k, o, m) ensures IsInherited(u, o, m, T(s, o).prio) <==> !LosesReason(k, o, m) {
      OneReason(k, u, due, o, m);
    }
  }

  // ---- the mutex steps -------------------------------------------------------------------

  lemma LockReasons(k: Kernel, m: nat, timeout: nat)
    requires Inv(k) && Enabled(k, Lock(m, timeout)) && Disciplined(k, Lock(m, timeout), TimedLocks) && AllInherit(k)
    requires Inh(k, TimedLocks)
    ensures AllInherit(MutexLock(k, m, timeout).0)
  {
    hide Inv, OwnersUp, LevelsOk, WaitsSorted, BlockOn, Boost, IsInherited, HoldsNone, T;
    SelfFacts(k);
    var u := MutexLock(k, m, timeout).0;
    if MutexLock(k, m, timeout).1 == Waits { WaitReasons(k, m, timeout); }
    else if k.mutexes[m].owner == None { TakeReasons(k, u, m); }
    else { assert forall o, n :: Owns(u, o, n) <==> Owns(k, o, n); SameLists(k, u); }
  }

  lemma SameLists(k: Kernel, u: Kernel)
    requires u.s == k.s && AllInherit(k) && forall o, n :: Owns(u, o, n) <==> Owns(k, o, n)
    ensures AllInherit(u)
  {
    hide Owns, T, W;
    forall o, m | Owns(u, o, m) ensures IsInherited(u, o, m, T(u.s, o).prio) {
      assert IsInherited(k, o, m, T(k.s, o).prio);
    }
  }

  lemma TakeReasons(k: Kernel, u: Kernel, m: nat)
    requires Inv(k) && AllInherit(k) && Inherits(k) && HoldsNone(k, Self(k)) && Self(k) in k.s.tasks
    requires m in k.mutexes && k.mutexes[m].owner == None && u == k.(mutexes := k.mutexes[m := Mutex(Some(Self(k)), 1)])
    ensures AllInherit(u)
  {
    MutexesOfInv(k);
    FreeHasNoWaiters(k, m);
    assert forall o, n :: Owns(u, o, n) <==> if n == m then o == Self(k) else Owns(k, o, n);
    hide Inv, Linked, AllPlaced, MutexesOk, Owns, HoldsNone, T, W;
    forall o, n | Owns(u, o, n) ensures IsInherited(u, o, n, T(u.s, o).prio) {
      if n != m { assert IsInherited(k, o, n, T(k.s, o).prio); }
    }
  }

  lemma WaitReasons(k: Kernel, m: nat, timeout: nat)
    requires Inv(k) && TaskCode(k) && m in k.mutexes && MutexLock(k, m, timeout).1 == Waits && AllInherit(k)
    requires HoldsNone(k, Self(k)) && OwnersUp(k) && Inherits(k)
    ensures AllInherit(MutexLock(k, m, timeout).0)
  {
    hide Inv, Linked, AllPlaced, MutexLock, TaskCode, OwnersUp, Inherits, WaitsSorted, HoldsNone, Owns, IsInherited,
         T, R, W;
    MutexesOfInv(k);
    WaitersBlocked(k.s);
    var o, s := LockWaitView(k, m, timeout);
    var u := k.(s := s);
    SameOwners(k, u);
    forall x, n | Owns(u, x, n) ensures IsInherited(u, x, n, T(s, x).prio) {
      assert IsInherited(k, x, n, T(k.s, x).prio);
      OwnsOne(k, x, n, o, m);
      WaitReason(k, u, x, n, o, m);
    }
  }

  lemma SameOwners(k: Kernel, u: Kernel)
    requires u.mutexes == k.mutexes
    ensures forall o, n :: Owns(u, o, n) <==> Owns(k, o, n)
  {}

  lemma OwnsOne(k: Kernel, x: Tid, n: nat, o: Tid, m: nat)
    requires OwnersUp(k) && Owns(k, x, n) && Owns(k, o, m) && HoldsNone(k, Self(k))
    ensures x != Self(k) && (x == o <==> n == m)
  {}

  lemma WaitReason(k: Kernel, u: Kernel, x: Tid, n: nat, o: Tid, m: nat)
    requires IsInherited(k, x, n, T(k.s, x).prio) && x != Self(k) && o != Self(k) && (x == o <==> n == m)
    requires T(k.s, o).state == Ready && T(k.s, Self(k)).state == Running
    requires T(u.s, o) == T(k.s, o).(prio := Max(T(k.s, Self(k)).prio, T(k.s, o).prio))
    requires T(u.s, Self(k)).prio == T(k.s, Self(k)).prio
    requires forall y :: y != o && y != Self(k) ==> T(u.s, y) == T(k.s, y)
    requires forall w, t {:trigger t in W(u.s, w)}{:trigger t in W(k.s, w)} ::
      t in W(u.s, w) <==> t in W(k.s, w) || (t == Self(k) && w == MutexWaiters(m))
    requires forall i, t {:trigger t in W(k.s, MutexWaiters(i))} ::
      t in W(k.s, MutexWaiters(i)) ==> T(k.s, t).state == Blocked
    ensures IsInherited(u, x, n, T(u.s, x).prio)
  {
    hide T, W;
    assert Self(k) in W(u.s, MutexWaiters(m));
  }

  lemma UnlockReasons(k: Kernel, m: nat)
    requires Inv(k) && Enabled(k, Unlock(m)) && Inh(k, TimedLocks) && AllInherit(k)
    ensures AllInherit(MutexUnlock(k, m).0)
  {
    hide Inv, OwnersUp, Inherits, LevelsOk, WaitsSorted, WakeWaiter, Restore, IsInherited, T;
    var u := MutexUnlock(k, m).0;
    if Releases(k, m) { HandOverReasons(k, m); }
    else { assert forall o, n :: Owns(u, o, n) <==> Owns(k, o, n); SameLists(k, u); }
  }

  lemma HandOverReasons(k: Kernel, m: nat)
    requires Inv(k) && TaskCode(k) && Releases(k, m) && AllInherit(k)
    requires OwnersUp(k) && Inherits(k) && WaitsSorted(k.s)
    ensures AllInherit(MutexUnlock(k, m).0)
  {
    hide Inv, TaskCode, MutexUnlock, OwnersUp, Inherits, WaitsSorted, HandedOver, IsInherited, Owns, HoldsNone, T, W;
    var w, u := UnlockView(k, m);
    HandedOverHolders(k, u, m, w);
    forall o, n | Owns(u, o, n) ensures IsInherited(u, o, n, T(u.s, o).prio) {
      if n == m { NewOwnerReason(k, u, m, w); } else { OtherOwnerReason(k, u, m, w, o, n); }
    }
  }

  lemma NewOwnerReason(k: Kernel, u: Kernel, m: nat, w: Option<Tid>)
    requires HandedOver(k, u, m, w) && w.Some? && Inherits(k)
    ensures IsInherited(u, w.value, m, T(u.s, w.value).prio)
  {
    hide Owns, HoldsNone, T, R, W;
  }

  lemma OtherOwnerReason(k: Kernel, u: Kernel, m: nat, w: Option<Tid>, o: Tid, n: nat)
    requires HandedOver(k, u, m, w) && NewHolders(k, u, m, w) && AllInherit(k) && n != m && Owns(u, o, n)
    ensures IsInherited(u, o, n, T(u.s, o).prio)
  {
    hide Owns, HoldsNone, T, R, W;
    assert IsInherited(k, o, n, T(k.s, o).prio);
  }

  lemma ReturnReasons(k: Kernel, m: nat)
    requires Inv(k) && Enabled(k, LockReturn(m)) && AllInherit(k)
    ensures AllInherit(MutexLockReturn(k, m).0)
  {
    hide Inv, MutexLockReturn, AllInherit, T, R, W;
    var s := LockReturnEffect(k, m);
    UntouchedReasons(k, k.(s := s));
    OnlyTheSched(k, m);
  }

  lemma OnlyTheSched(k: Kernel, m: nat)
    requires m in k.mutexes
    ensures MutexLockReturn(k, m).0 == k.(s := MutexLockReturn(k, m).0.s)
  {}

  lemma UntouchedReasons(k: Kernel, u: Kernel)
    requires u == k.(s := u.s) && AllInherit(k)
    requires forall x :: T(u.s, x).prio == T(k.s, x).prio && T(u.s, x).base == T(k.s, x).base
    requires forall w :: W(u.s, w) == W(k.s, w)
    ensures AllInherit(u)
  {
    hide T, W;
    assert forall o, m :: Owns(u, o, m) <==> Owns(k, o, m);
    SameReasonsKeep(k, u);
  }

  lemma RearrangedReasons(k: Kernel, step: Step)
    requires Inv(k) && Enabled(k, step) && Rearranges(step) && AllInherit(k)
    ensures AllInherit(Next(k, step).0)
  {
    hide Inv, TaskCode, CanDispatch, SelectNext, SuspendTask, ResumeTask, AllInherit, T, R, W;
    var s := k.s;
    match step
    case Switch => s := SwitchEffect(k); UntouchedReasons(k, k.(s := s));
    case Suspend(t) => s := SuspendEffect(k.s, t); UntouchedReasons(k, k.(s := s));
    case Resume(t) => s := ResumeEffect(k.s, t); UntouchedReasons(k, k.(s := s));
  }

  // ---- any step --------------------------------------------------------------------------

  /**
   * In a disciplined run with timed locks, from a state in which every owner's priority is exactly the inherited
   * one, a step leaves an owner above that exactly if it is a tick that times out the last waiters it has it from.
   */
  lemma InheritanceExactly(k: Kernel, step: Step)
    requires Inv(k) && Inh(k, TimedLocks) && Enabled(k, step) && Disciplined(k, step, TimedLocks) && AllInherit(k)
    ensures AllInherit(Next(k, step).0) <==> !Overstays(k, step)
  {
    hide Inv, OwnersUp, Inherits, LevelsOk, WaitsSorted, HoldsNone, AllInherit, TaskCode, Resumed, MutexLock,
         MutexUnlock, MutexLockReturn, Tick, T;
    match step
    case SysTick => TickReasons(k);
    case Lock(m, timeout) => LockReasons(k, m, timeout);
    case Unlock(m) => UnlockReasons(k, m);
    case LockReturn(m) => ReturnReasons(k, m);
    case _ =>
      hide Enabled, Next;
      if Rearranges(step) { RearrangedReasons(k, step); }
      else { OrdinaryKeepReasons(k, step); }
  }

  ghost predicate InheritsThroughout(k: Kernel, steps: seq<Step>)
    requires Legal(k, steps)
    decreases |steps|
  {
    AllInherit(k) && (steps == [] || InheritsThroughout(Next(k, steps[0]).0, steps[1..]))
  }

  ghost predicate NeverOverstays(k: Kernel, steps: seq<Step>)
    requires Legal(k, steps)
    decreases |steps|
  {
    steps != [] ==> !Overstays(k, steps[0]) && NeverOverstays(Next(k, steps[0]).0, steps[1..])
  }

  lemma {:induction false} InheritanceThroughout(k: Kernel, steps: seq<Step>)
    requires Inv(k) && Inh(k, TimedLocks) && AllInherit(k) && Legal(k, steps) && DisciplinedRun(k, steps, TimedLocks)
    ensures InheritsThroughout(k, steps) <==> NeverOverstays(k, steps)
    decreases |steps|
  {
    if steps != [] {
      hide Inv, Inh, AllInherit, Overstays, Enabled, Next, Disciplined;
      InheritanceExactly(k, steps[0]);
      NextKeeps(k, steps[0]);
      NextKeepsInh(k, steps[0], TimedLocks);
      if AllInherit(Next(k, steps[0]).0) { InheritanceThroughout(Next(k, steps[0]).0, steps[1..]); }
      else { assert !InheritsThroughout(Next(k, steps[0]).0, steps[1..]); }
    }
  }

  /** From boot, with timed locks: inheritance is exact in every state exactly if no boost outlives its last waiter. */
  lemma TimedInheritanceExactly(k: Kernel, steps: seq<Step>)
    requires Boot(k) && Legal(k, steps) && DisciplinedRun(k, steps, TimedLocks)
    ensures InheritsThroughout(k, steps) <==> NeverOverstays(k, steps)
  {
    hide Inv, Inh, Legal, DisciplinedRun, InheritsThroughout, NeverOverstays, IsInherited;
    BootInv(k);
    BootInh(k, TimedLocks);
    InheritanceThroughout(k, steps);
  }
}

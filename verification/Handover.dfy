/** Who has been signalled on a wait list and has not resumed yet, and how each step changes that set. */
module Handover {
  import opened Base
  import opened Sequences
  import opened Scheduler
  import opened Membership
  import opened Evolution
  import opened Kernel
  import opened Invariants
  import opened Signals
  import opened Effects

  /** The task was signalled while it waited on `w`, and its call has not resumed. */
  predicate IsPending(s: Sched, w: WaitList, t: Tid) {
    && t in s.tasks && InKernel(T(s, t).call) && WaitsOn(T(s, t).call) == Some(w)
    && T(s, t).state != Blocked && T(s, t).result == OK
  }

  function Pending(s: Sched, w: WaitList): set<Tid> {
    set t | t in s.tasks && IsPending(s, w, t)
  }

  /** The task that finishes its call in this step. */
  function Finisher(k: Kernel, step: Step): set<Tid> {
    if Finishes(k, step, Self(k)) then {Self(k)} else {}
  }

  /** The task a step signals on `w`. */
  function Signalled(k: Kernel, step: Step, w: WaitList): set<Tid>
    requires Enabled(k, step)
  {
    if Wakes(k, step) == Some(w) && W(k.s, w) != [] then {W(k.s, w)[0]} else {}
  }

  // ---- calls begin and end with their own task -------------------------------------------

  predicate NotInKernel(s: Sched, t: Tid) { t in s.tasks ==> !InKernel(T(s, t).call) }

  predicate FreshlyBlocked(s: Sched, t: Tid) { T(s, t).state == Blocked || !InKernel(T(s, t).call) }

  /** A task that was in no call is in none after the step, or has just blocked in one. */
  lemma CallsBeginBlocked(k: Kernel, step: Step, t: Tid)
    requires Inv(k) && Enabled(k, step) && t in Next(k, step).0.s.tasks && NotInKernel(k.s, t)
    ensures FreshlyBlocked(Next(k, step).0.s, t)
  {
    if t in k.s.tasks && T(k.s, t).state == Blocked { BlockedInCall(k, t); }
    hide Inv, Enabled, Next, T;
    var u := AnyTask(k, step, t);
  }

  /** A finished call is over. */
  lemma FinishFrees(k: Kernel, step: Step, t: Tid)
    requires Inv(k) && Enabled(k, step) && Finishes(k, step, t)
    ensures T(Next(k, step).0.s, t).call == NoCall && t in k.s.tasks && InKernel(T(k.s, t).call)
  {
    hide Inv, Leave, Placed, T, CopyIn, CopyOut;
    SelfFacts(k);
    LeaveQuiet(k.s, t);
    var u := LeaveFrame(k.s, t);
  }

  // ---- the pending set -------------------------------------------------------------------

  lemma HeadFacts(k: Kernel, w: WaitList)
    requires Inv(k) && W(k.s, w) != []
    ensures var t := W(k.s, w)[0]; t in k.s.tasks && T(k.s, t).state == Blocked && WaitsOn(T(k.s, t).call) == Some(w)
                                   && InKernel(T(k.s, t).call)
  {
    MutexesOfInv(k);
    hide Inv, Linked, AllPlaced, T, W;
    WaiterIsBlocked(k.s, w);
  }

  lemma StaysKnown(k: Kernel, step: Step)
    requires Inv(k) && Enabled(k, step)
    ensures k.s.tasks.Keys <= Next(k, step).0.s.tasks.Keys
  {
    hide Inv, Enabled, Next, BystanderEffect, ActorEffect, T, R;
    var u := EveryStep(k, step);
  }

  /** A signal does reach the head of the list. */
  lemma SignalReaches(k: Kernel, step: Step, w: WaitList)
    requires Inv(k) && Enabled(k, step) && Wakes(k, step) == Some(w) && W(k.s, w) != [] && !w.MutexWaiters?
    ensures Answered(k.s, Next(k, step).0.s, W(k.s, w)[0], OK)
  {
    hide Inv, Linked, AllPlaced, TaskCode, WakeWaiter, BlockOn, T, W, CopyIn, CopyOut;
    MutexesOfInv(k);
    var u := WokenFrame(k.s, w);
    WakeReturns(k.s, w);
  }

  lemma WakeReturns(s: Sched, w: WaitList)
    ensures WakeWaiter(s, w).1 == if W(s, w) == [] then None else Some(W(s, w)[0])
  {}

  /** Membership of the pending set of `w`, one task at a time. */
  lemma PendingMember(k: Kernel, step: Step, w: WaitList, t: Tid)
    requires Inv(k) && Enabled(k, step) && !w.MutexWaiters?
    ensures IsPending(Next(k, step).0.s, w, t) <==>
      t in Signalled(k, step, w) || (IsPending(k.s, w, t) && !Finishes(k, step, t))
  {
    hide Inv, Enabled, Next, Wakes, Finishes, T, W;
    var u := Next(k, step).0.s;
    if t in Signalled(k, step, w) {
      HeadFacts(k, w);
      SignalReaches(k, step, w);
      BlockedInCall(k, t);
      StaysKnown(k, step);
    }
    else if t !in k.s.tasks || !InKernel(T(k.s, t).call) {
      if t in u.tasks { CallsBeginBlocked(k, step, t); }
    }
    else if Finishes(k, step, t) { FinishFrees(k, step, t); }
    else {
      SignalOrTimeout(k, step, t);
      if T(k.s, t).state == Blocked { SleeperStays(k, step, w, t); }
    }
  }

  /** A task that is not signalled on the list it waits on is not pending after the step. */
  lemma SleeperStays(k: Kernel, step: Step, w: WaitList, t: Tid)
    requires Inv(k) && Enabled(k, step) && t in k.s.tasks && T(k.s, t).state == Blocked && t !in Signalled(k, step, w)
    requires CallEvolves(k, step, Next(k, step).0.s, t)
    ensures !IsPending(Next(k, step).0.s, w, t)
  {
    hide Inv, Enabled, Next, Wakes, T, W;
    OnlyTheHeadWakes(k, step, t);
    if Wakes(k, step).Some? && W(k.s, Wakes(k, step).value) != [] { HeadFacts(k, Wakes(k, step).value); }
  }

  /** The pending set loses the task that finishes and gains the one that is signalled. */
  lemma PendingSteps(k: Kernel, step: Step, w: WaitList)
    requires Inv(k) && Enabled(k, step) && !w.MutexWaiters?
    ensures Pending(Next(k, step).0.s, w) == Pending(k.s, w) - Finisher(k, step) + Signalled(k, step, w)
    ensures Signalled(k, step, w) !! Pending(k.s, w)
  {
    hide Inv, Enabled, Next, Wakes, IsPending, T, W;
    var u := Next(k, step).0.s;
    forall t ensures t in Pending(u, w) <==> t in Pending(k.s, w) - Finisher(k, step) + Signalled(k, step, w) {
      PendingMember(k, step, w, t);
      PendingExists(u, w, t);
      PendingExists(k.s, w, t);
    }
    if Wakes(k, step) == Some(w) && W(k.s, w) != [] { HeadFacts(k, w); HeadNotPending(k.s, w, W(k.s, w)[0]); }
  }

  lemma PendingExists(s: Sched, w: WaitList, t: Tid)
    ensures t in Pending(s, w) <==> IsPending(s, w, t)
  {}

  lemma HeadNotPending(s: Sched, w: WaitList, t: Tid)
    requires T(s, t).state == Blocked
    ensures t !in Pending(s, w)
  {}

  lemma MutexStepShrinks(k: Kernel, step: Step, w: WaitList)
    requires Inv(k) && Enabled(k, step) && !NoMutex(step) && !w.MutexWaiters?
    ensures forall t :: t in W(Next(k, step).0.s, w) ==> t in W(k.s, w)
  {
    hide Inv, Linked, AllPlaced, Placed, MutexesOk, IdleKept, Quiet, Evolves, MutexLock, MutexUnlock, Leave, Enter, T,
         W;
    match step
    case Lock(m, timeout) =>
      if MutexLock(k, m, timeout).1 == Waits { LockWaitsKeeps(k, m, timeout); } else { LockTakesKeeps(k, m, timeout); }
    case LockReturn(m) =>
      SelfFacts(k);
      LeaveQuiet(k.s, Self(k));
      OrdinaryLeave(k);
    case Unlock(m) => UnlockKeepsMutexes(k, m);
  }

  lemma BlockedWaits(k: Kernel, t: Tid)
    requires Inv(k) && t in k.s.tasks && T(k.s, t).state == Blocked
    ensures WaitsOn(T(k.s, t).call).Some? ==> t in W(k.s, WaitsOn(T(k.s, t).call).value)
  {
    assert Placed(k.s, t);
  }

  lemma BlockedWaitsBefore(k: Kernel, t: Tid)
    requires Inv(k) && (t in k.s.tasks ==> !InKernel(T(k.s, t).call))
    ensures forall w :: t !in W(k.s, w)
  {
    MutexesOfInv(k);
    hide Inv, Linked, AllPlaced, T, W;
    forall w ensures t !in W(k.s, w) { WaiterIsBlocked(k.s, w); if t in W(k.s, w) { BlockedInCall(k, t); } }
  }

  lemma WaiterJoined(k: Kernel, step: Step, t: Tid, w: WaitList)
    requires Inv(k) && Enabled(k, step) && !w.MutexWaiters? && t in W(Next(k, step).0.s, w) && t !in W(k.s, w)
    ensures Joins(step) == Some(w)
  {
    hide Inv, Enabled, Next, Linked, AllPlaced, Quiet, IdleKept, T, W;
    if NoMutex(step) { PlainStep(k, step); } else { MutexStepShrinks(k, step, w); }
  }

  /** A task in a call on `w` was in it before the step, or has blocked on `w` in it. */
  lemma NewWaiter(k: Kernel, step: Step, t: Tid, w: WaitList)
    requires Inv(k) && Enabled(k, step) && t in Next(k, step).0.s.tasks && !w.MutexWaiters?
    requires InKernel(T(Next(k, step).0.s, t).call) && WaitsOn(T(Next(k, step).0.s, t).call) == Some(w)
    ensures (t in k.s.tasks && T(k.s, t).call == T(Next(k, step).0.s, t).call)
            || (Joins(step) == Some(w) && (t in k.s.tasks ==> !InKernel(T(k.s, t).call)))
  {
    hide Inv, Enabled, Next, Finishes, Linked, AllPlaced, T, W;
    var u := Next(k, step).0;
    if t in k.s.tasks && InKernel(T(k.s, t).call) {
      if Finishes(k, step, t) { FinishFrees(k, step, t); } else { SignalOrTimeout(k, step, t); }
    } else {
      CallsBeginBlocked(k, step, t);
      NextKeeps(k, step);
      BlockedWaits(u, t);
      BlockedWaitsBefore(k, t);
      WaiterJoined(k, step, t, w);
    }
  }

  // ---- calls of the tasks that do not act ------------------------------------------------

  /** Nobody's call changes but the acting task's. */
  lemma CallKept(k: Kernel, step: Step, t: Tid)
    requires Inv(k) && Enabled(k, step) && t in k.s.tasks && Actor(k, step) != Some(t)
    ensures T(Next(k, step).0.s, t).call == T(k.s, t).call && t in Next(k, step).0.s.tasks
  {
    hide Inv, Enabled, Next, T;
    var u := Bystander(k, step, t);
  }

  lemma AddAll(a: set<Tid>, b: set<Tid>)
    requires a !! b
    ensures |a + b| == |a| + |b|
  {}

  lemma DropOne(a: set<Tid>, t: Tid)
    ensures |a - {t}| == if t in a then |a| - 1 else |a|
    ensures t !in a ==> a - {t} == a
  {
    if t !in a { assert a - {t} == a; }
  }
}

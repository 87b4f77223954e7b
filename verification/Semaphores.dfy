/**
 * Semaphores over runs: no unit is lost, made up, stolen from the task it was handed to, or counted above the
 * limit.
 */
module Semaphores {
  import opened Base
  import opened Sequences
  import opened Scheduler
  import opened Membership
  import opened Kernel
  import opened Invariants
  import opened Signals
  import opened Handover

  /** The units a step puts in: a give with a waiter to take it, or room to keep it. */
  function UnitsIn(k: Kernel, step: Step, id: nat): nat
    requires Enabled(k, step) && id in k.sems
  {
    if (step == Give(id) || step == GiveFromIsr(id))
        && (W(k.s, SemWaiters(id)) != [] || k.sems[id].count < k.sems[id].max) then 1 else 0
  }

  /** The units a step hands to the caller: a take, at once or on resuming, that returns OK. */
  function UnitsOut(k: Kernel, step: Step, id: nat): nat
    requires Enabled(k, step)
  {
    if ((step.Take? && step.sem == id) || (step.TakeReturn? && step.sem == id))
        && Next(k, step).1 == Returns(OK) then 1 else 0
  }

  /** The units in the kernel's hands: counted, or granted to a waiter that has not resumed. */
  function UnitsHeld(k: Kernel, id: nat): nat
    requires id in k.sems
  {
    k.sems[id].count + |Pending(k.s, SemWaiters(id))|
  }

  /** What a step does to a semaphore's count. */
  lemma CountSteps(k: Kernel, step: Step, id: nat)
    requires Inv(k) && Enabled(k, step) && id in k.sems
    ensures var u := Next(k, step).0;
      && u.sems.Keys == k.sems.Keys && u.sems[id].max == k.sems[id].max
      && (step.Take? && step.sem == id ==>
            u.sems[id].count == k.sems[id].count - UnitsOut(k, step, id)
                && (UnitsOut(k, step, id) == 1 <==> k.sems[id].count > 0))
      && (step == Give(id) || step == GiveFromIsr(id) ==>
            u.sems[id].count == k.sems[id].count + UnitsIn(k, step, id) - |Signalled(k, step, SemWaiters(id))|)
      && (!(step.Take? && step.sem == id) && step != Give(id) && step != GiveFromIsr(id) ==> u.sems[id] == k.sems[id])
  {
    hide Inv, CanDispatch, TaskCode, Resumed, SelectNext, Tick, BlockOn, Leave, MakeReady, CreateTask, SuspendTask,
         ResumeTask, T, W, CopyIn, CopyOut, MutexLock, MutexUnlock;
    match step
    case Lock(m, timeout) => LockEnds(k, m, timeout);
    case Unlock(m) => UnlockEnds(k, m);
    case _ =>
  }

  /** The resume half of a take returns its unit exactly if the caller was granted one. */
  lemma ResumedTake(k: Kernel, step: Step, id: nat)
    requires Inv(k) && Enabled(k, step) && step.TakeReturn? && step.sem == id
    ensures Finisher(k, step) == {Self(k)} && (UnitsOut(k, step, id) == 1 <==> Self(k) in Pending(k.s, SemWaiters(id)))
  {
    SelfFacts(k);
  }

  /** A task that finishes another call is not pending on this semaphore. */
  lemma OtherFinisher(k: Kernel, step: Step, id: nat)
    requires Enabled(k, step) && !(step.TakeReturn? && step.sem == id)
    ensures Pending(k.s, SemWaiters(id)) - Finisher(k, step) == Pending(k.s, SemWaiters(id))
  {
    if Finishes(k, step, Self(k)) { assert WaitsOn(T(k.s, Self(k)).call) != Some(SemWaiters(id)); }
  }

  lemma NoSignal(k: Kernel, step: Step, id: nat)
    requires Enabled(k, step) && step != Give(id) && step != GiveFromIsr(id)
    ensures Signalled(k, step, SemWaiters(id)) == {}
  {}

  lemma GivesDoNotFinish(k: Kernel, step: Step, id: nat)
    requires Enabled(k, step) && (step == Give(id) || step == GiveFromIsr(id))
    ensures Finisher(k, step) == {} && UnitsOut(k, step, id) == 0 && !step.TakeReturn? && !step.Take?
    ensures Wakes(k, step) == Some(SemWaiters(id))
  {}

  /** Conservation, one step: what is held afterwards and taken out is what was held and put in. */
  lemma UnitsBalance(k: Kernel, step: Step, id: nat)
    requires Inv(k) && Enabled(k, step) && id in k.sems
    ensures id in Next(k, step).0.sems
    ensures UnitsHeld(Next(k, step).0, id) + UnitsOut(k, step, id) == UnitsHeld(k, id) + UnitsIn(k, step, id)
  {
    hide Inv, Enabled, Next, Finisher, Signalled, Wakes, Pending, Finishes, T, W;
    var w, u := SemWaiters(id), Next(k, step).0;
    CountSteps(k, step, id);
    PendingSteps(k, step, w);
    if step == Give(id) || step == GiveFromIsr(id) {
      GivesDoNotFinish(k, step, id);
      AddAll(Pending(k.s, w), Signalled(k, step, w));
      assert Pending(u.s, w) == Pending(k.s, w) + Signalled(k, step, w);
    } else {
      NoSignal(k, step, id);
      if step.TakeReturn? && step.sem == id {
        ResumedTake(k, step, id);
        DropOne(Pending(k.s, w), Self(k));
        assert Pending(u.s, w) == Pending(k.s, w) - {Self(k)};
      } else {
        OtherFinisher(k, step, id);
        assert Pending(u.s, w) == Pending(k.s, w);
      }
    }
  }

  // ---- runs ------------------------------------------------------------------------------

  function PutIn(k: Kernel, steps: seq<Step>, id: nat): nat
    requires Inv(k) && Legal(k, steps) && id in k.sems
    decreases |steps|
  {
    if steps == [] then 0
    else
      NextKeeps(k, steps[0]); UnitsBalance(k, steps[0], id);
      UnitsIn(k, steps[0], id) + PutIn(Next(k, steps[0]).0, steps[1..], id)
  }

  function TakenOut(k: Kernel, steps: seq<Step>, id: nat): nat
    requires Legal(k, steps)
    decreases |steps|
  {
    if steps == [] then 0 else UnitsOut(k, steps[0], id) + TakenOut(Next(k, steps[0]).0, steps[1..], id)
  }

  lemma {:induction false} UnitsConserved(k: Kernel, steps: seq<Step>, id: nat)
    requires Inv(k) && Legal(k, steps) && id in k.sems
    ensures id in Run(k, steps).sems
    ensures UnitsHeld(Run(k, steps), id) + TakenOut(k, steps, id) == UnitsHeld(k, id) + PutIn(k, steps, id)
    decreases |steps|
  {
    hide Inv, Enabled, Next, UnitsIn, UnitsOut, UnitsHeld;
    if steps != [] {
      NextKeeps(k, steps[0]);
      UnitsBalance(k, steps[0], id);
      UnitsConserved(Next(k, steps[0]).0, steps[1..], id);
    }
  }

  /**
   * Conservation from boot: the initial count plus every give that did not saturate is what is counted, granted or
   * taken.
   */
  lemma Conservation(k: Kernel, steps: seq<Step>, id: nat)
    requires Boot(k) && Legal(k, steps) && id in k.sems
    ensures Inv(k) && id in Run(k, steps).sems
    ensures var u := Run(k, steps);
      k.sems[id].count + PutIn(k, steps, id)
        == u.sems[id].count + |Pending(u.s, SemWaiters(id))| + TakenOut(k, steps, id)
  {
    BootInv(k);
    UnitsConserved(k, steps, id);
    hide Inv;
    assert k.s.tasks.Keys == {IDLE} && T(k.s, IDLE).call == NoCall;
    assert Pending(k.s, SemWaiters(id)) == {};
  }

  /** A count that starts within its limit never exceeds it; one that starts above never grows. */
  lemma {:induction false} CountWithinLimit(k: Kernel, steps: seq<Step>, id: nat)
    requires Inv(k) && Legal(k, steps) && id in k.sems
    ensures id in Run(k, steps).sems && Run(k, steps).sems[id].max == k.sems[id].max
    ensures Run(k, steps).sems[id].count <= Max(k.sems[id].count, k.sems[id].max)
    decreases |steps|
  {
    hide Inv, Enabled, Next, UnitsOut, W, Signalled;
    if steps != [] {
      var u := Next(k, steps[0]).0;
      NextKeeps(k, steps[0]);
      CountSteps(k, steps[0], id);
      GrowsBelowLimit(k, steps[0], id);
      CountWithinLimit(u, steps[1..], id);
    }
  }

  lemma GrowsBelowLimit(k: Kernel, step: Step, id: nat)
    requires Inv(k) && Enabled(k, step) && id in k.sems
    ensures id in Next(k, step).0.sems
    ensures Next(k, step).0.sems[id].count <= Max(k.sems[id].count, k.sems[id].max)
  {
    CountSteps(k, step, id);
    hide Inv, Enabled, Next, UnitsOut, W;
    if (step == Give(id) || step == GiveFromIsr(id)) && W(k.s, SemWaiters(id)) != [] {
      GivesDoNotFinish(k, step, id);
      assert |Signalled(k, step, SemWaiters(id))| == 1;
    }
  }

  /** A unit handed to a waiter stays his: he stays granted until his own take returns, and it returns OK. */
  lemma {:induction false} GrantedCannotBeStolen(k: Kernel, steps: seq<Step>, id: nat, t: Tid)
    requires Inv(k) && Legal(k, steps) && t in Pending(k.s, SemWaiters(id)) && StaysInCall(k, steps, t)
    ensures var u := Run(k, steps);
      && t in Pending(u.s, SemWaiters(id))
      && (Self(u) == t && Enabled(u, TakeReturn(id)) ==> Next(u, TakeReturn(id)).1 == Returns(OK))
    decreases |steps|
  {
    hide Inv, Enabled, Next, T, Finishes;
    if steps == [] {
      if Self(k) == t && Enabled(k, TakeReturn(id)) { PendingReturnsOk(k, id); }
    } else {
      NextKeeps(k, steps[0]);
      PendingMember(k, steps[0], SemWaiters(id), t);
      PendingExists(Next(k, steps[0]).0.s, SemWaiters(id), t);
      GrantedCannotBeStolen(Next(k, steps[0]).0, steps[1..], id, t);
    }
  }

  lemma PendingReturnsOk(k: Kernel, id: nat)
    requires Enabled(k, TakeReturn(id)) && Self(k) in Pending(k.s, SemWaiters(id))
    ensures Next(k, TakeReturn(id)).1 == Returns(OK)
  {}

  /** Units are left only while nobody waits for one. */
  lemma NoWaiterWhileUnitsLeft(k: Kernel, steps: seq<Step>, id: nat)
    requires Boot(k) && Legal(k, steps) && id in Run(k, steps).sems && Run(k, steps).sems[id].count > 0
    ensures W(Run(k, steps).s, SemWaiters(id)) == []
  {
    BootInv(k);
    Reachable(k, steps);
    hide Boot, W;
    MutexesOfInv(Run(k, steps));
  }
}

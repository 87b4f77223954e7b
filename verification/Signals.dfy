/**
 * The life of a blocked call: between its block half and its resume half exactly one step answers
 * it, a signal or a tick, and when no signal comes the tick at the deadline does.
 */
module Signals {
  import opened Base
  import opened Sequences
  import opened Scheduler
  import opened Membership
  import opened Ticking
  import opened Evolution
  import opened Kernel
  import opened Invariants
  import opened Effects

  /** `t` finishes its call in this step. */
  predicate Finishes(k: Kernel, step: Step, t: Tid) {
    Self(k) == t && (step.DelayReturn? || step.LockReturn? || step.TakeReturn? || step.SendReturn?
        || step.ReceiveReturn?)
  }

  /** The wait list whose head a step wakes, if it has one. */
  function Wakes(k: Kernel, step: Step): Option<WaitList>
    requires Enabled(k, step)
  {
    match step
    case Unlock(m) => if Releases(k, m) then Some(MutexWaiters(m)) else None
    case Give(id) => Some(SemWaiters(id))
    case GiveFromIsr(id) => Some(SemWaiters(id))
    case Send(q, _, _) => if k.queues[q].count < |k.queues[q].buffer| then Some(Receivers(q)) else None
    case SendFromIsr(q, _) => if k.queues[q].count < |k.queues[q].buffer| then Some(Receivers(q)) else None
    case Receive(q, _) => if k.queues[q].count > 0 then Some(Senders(q)) else None
    case _ => None
  }

  /** Only the priority of `t` may have changed. */
  predicate SameButPrio(s: Sched, u: Sched, t: Tid) {
    T(u, t) == T(s, t).(prio := T(u, t).prio)
  }

  /** The call of `t`, its answer and its node on the wait list are as they were. */
  predicate SameCall(s: Sched, u: Sched, t: Tid) {
    T(u, t).call == T(s, t).call && T(u, t).result == T(s, t).result && T(u, t).answers == T(s, t).answers
    && T(u, t).event == T(s, t).event && T(u, t).state != Blocked
  }

  /** What one step can do to a task in a kernel call. */
  predicate CallEvolves(k: Kernel, step: Step, u: Sched, t: Tid) {
    t in u.tasks && if T(k.s, t).state == Blocked then SameButPrio(k.s, u, t) || Answered(k.s, u, t, Answer(step))
                    else SameCall(k.s, u, t)
  }

  lemma NotActor(k: Kernel, step: Step, t: Tid)
    requires Enabled(k, step) && t in k.s.tasks && InKernel(T(k.s, t).call) && !Finishes(k, step, t)
    ensures Actor(k, step) != Some(t)
  {}

  /** Any step, any task in a call it does not finish: no change but priority, or the one answer, off both lists. */
  lemma SignalOrTimeout(k: Kernel, step: Step, t: Tid)
    requires Inv(k) && Enabled(k, step) && t in k.s.tasks && InKernel(T(k.s, t).call) && !Finishes(k, step, t)
    ensures CallEvolves(k, step, Next(k, step).0.s, t)
  {
    hide Inv, Finishes, InKernel, Enabled, Next, T;
    NotActor(k, step, t);
    var u := Bystander(k, step, t);
  }

  // ---- who is woken ----------------------------------------------------------------------

  /** The step leaves `t` blocked unless `t` heads the list the step wakes. */
  predicate WokenAtHead(k: Kernel, step: Step, u: Sched, t: Tid)
    requires Enabled(k, step)
  {
    T(k.s, t).state == Blocked && T(u, t).state != Blocked ==>
      step == SysTick || (Wakes(k, step).Some? && W(k.s, Wakes(k, step).value) != []
          && W(k.s, Wakes(k, step).value)[0] == t)
  }

  lemma WakeAtHead(k: Kernel, step: Step, w: WaitList, t: Tid)
    requires Inv(k) && Enabled(k, step) && Wakes(k, step) == Some(w)
    ensures WokenAtHead(k, step, WakeWaiter(k.s, w).0, t)
  {
    hide Inv, Linked, AllPlaced, WakeWaiter, MakeReady, T, W;
    MutexesOfInv(k);
    var u := WokenFrame(k.s, w);
  }

  lemma BlockAtHead(k: Kernel, step: Step, call: Call, t: Tid)
    requires Inv(k) && Enabled(k, step) && TaskCode(k) && InKernel(call)
    ensures WokenAtHead(k, step, BlockOn(k.s, Self(k), call), t)
  {
    hide Inv, Placed, BlockOn, T, R, W, InsertWaiter;
    SelfFacts(k);
    var u := BlockOnFrame(k.s, Self(k), call);
  }

  lemma LeaveAtHead(k: Kernel, step: Step, t: Tid)
    requires Inv(k) && Enabled(k, step) && Resumed(k)
    ensures WokenAtHead(k, step, Leave(k.s, Self(k)), t)
  {
    hide Inv, Placed, Leave, T, R, W;
    SelfFacts(k);
    var u := LeaveFrame(k.s, Self(k));
  }

  lemma TaskAtHead(k: Kernel, step: Step, t: Tid)
    requires Inv(k) && Enabled(k, step) && t in k.s.tasks
    requires step.Create? || step.SysTick? || step.Delay? || step.DelayReturn?
    ensures WokenAtHead(k, step, Next(k, step).0.s, t)
  {
    hide Inv, BlockOn, Leave, Tick, TaskCode, T, W, AddReady, SetT;
    match step
    case Create(x, prio) => var v := SetTFrame(k.s, x,
        Tcb(prio, prio, Ready, Off, None, 0, OK, NoCall, 0, 0)); var _ := AddReadyFrame(v, x);
    case Delay(ticks) => BlockAtHead(k, step, Delaying(ticks), t);
    case DelayReturn => LeaveAtHead(k, step, t);
    case SysTick =>
  }

  lemma SemAtHead(k: Kernel, step: Step, t: Tid)
    requires Inv(k) && Enabled(k, step)
    requires step.Take? || step.TakeReturn? || step.Give? || step.GiveFromIsr?
    ensures WokenAtHead(k, step, Next(k, step).0.s, t)
  {
    hide Inv, BlockOn, Leave, MakeReady, TaskCode, Resumed, T, W;
    match step
    case Take(id, timeout) => if k.sems[id].count == 0 { BlockAtHead(k, step, Taking(id, timeout), t); }
    case TakeReturn(_) => LeaveAtHead(k, step, t);
    case Give(id) => WakeAtHead(k, step, SemWaiters(id), t);
    case GiveFromIsr(id) => WakeAtHead(k, step, SemWaiters(id), t);
  }

  lemma QueueAtHead(k: Kernel, step: Step, t: Tid)
    requires Inv(k) && Enabled(k, step)
    requires step.Send? || step.SendReturn? || step.SendFromIsr? || step.Receive? || step.ReceiveReturn?
    ensures WokenAtHead(k, step, Next(k, step).0.s, t)
  {
    hide Inv, BlockOn, Leave, WakeWaiter, TaskCode, Resumed, T, W, CopyIn, CopyOut;
    match step
    case Send(q, item, timeout) =>
      if k.queues[q].count < |k.queues[q].buffer| {
        WakeAtHead(k, step, Receivers(q), t);
      } else {
        BlockAtHead(k, step, Sending(q, item, timeout), t);
      }
    case SendReturn(_) => LeaveAtHead(k, step, t);
    case SendFromIsr(q, _) => if k.queues[q].count < |k.queues[q].buffer| { WakeAtHead(k, step, Receivers(q), t); }
    case Receive(q, timeout) =>
      if k.queues[q].count > 0 {
        WakeAtHead(k, step, Senders(q), t);
      } else {
        BlockAtHead(k, step, Receiving(q, timeout), t);
      }
    case ReceiveReturn(_) => LeaveAtHead(k, step, t);
  }

  /**
   * A signal wakes only the head of the list it is meant for; every other blocked task sleeps on, unless a tick
   * times it out.
   */
  lemma OnlyTheHeadWakes(k: Kernel, step: Step, t: Tid)
    requires Inv(k) && Enabled(k, step) && t in k.s.tasks && T(k.s, t).state == Blocked
    ensures WokenAtHead(k, step, Next(k, step).0.s, t)
  {
    BlockedInCall(k, t);
    hide Inv, WokenAtHead, Enabled, Next, T, W;
    if step.Take? || step.TakeReturn? || step.Give? || step.GiveFromIsr? { SemAtHead(k, step, t); }
    else if step.Create? || step.SysTick? || step.Delay? || step.DelayReturn? { TaskAtHead(k, step, t); }
    else if Rearranges(step) || !NoMutex(step) { OtherAtHead(k, step, t); }
    else { QueueAtHead(k, step, t); }
  }

  lemma BlockedInCall(k: Kernel, t: Tid)
    requires Inv(k) && t in k.s.tasks && T(k.s, t).state == Blocked
    ensures Placed(k.s, t) && InKernel(T(k.s, t).call) && T(k.s, t).answers == 0
    ensures forall step :: Enabled(k, step) ==> !Finishes(k, step, t)
  {
    assert Placed(k.s, t);
  }

  lemma OtherAtHead(k: Kernel, step: Step, t: Tid)
    requires Inv(k) && Enabled(k, step) && t in k.s.tasks && T(k.s, t).state == Blocked && InKernel(T(k.s, t).call)
    requires Rearranges(step) || !NoMutex(step)
    ensures WokenAtHead(k, step, Next(k, step).0.s, t)
  {
    hide Inv, SelectNext, SuspendTask, ResumeTask, MutexLock, MutexUnlock, MutexLockReturn, CanDispatch, TaskCode,
         Resumed, Releases, T, W;
    match step
    case Switch => var u := SwitchEffect(k);
    case Suspend(x) => var u := SuspendEffect(k.s, x);
    case Resume(x) => var u := ResumeEffect(k.s, x);
    case Lock(m, timeout) => CallerRuns(k, step); var u := LockEffect(k, m, timeout);
    case Unlock(m) => CallerRuns(k, step); var u, w := UnlockEffect(k, m);
    case LockReturn(m) => CallerRuns(k, step); var u := LockReturnEffect(k, m);
  }

  lemma CallerRuns(k: Kernel, step: Step)
    requires Inv(k) && Enabled(k, step) && !NoMutex(step)
    ensures T(k.s, Self(k)).state == Running
  {
    SelfFacts(k);
  }

  // ---- runs: exactly one answer ----------------------------------------------------------

  /** No step of the run is the resume half of `t`'s call. */
  predicate StaysInCall(k: Kernel, steps: seq<Step>, t: Tid)
    requires Legal(k, steps)
    decreases |steps|
  {
    steps != [] ==> !Finishes(k, steps[0], t) && StaysInCall(Next(k, steps[0]).0, steps[1..], t)
  }

  /** The steps of the run that take `t` from BLOCKED to another state. */
  function Wakeups(k: Kernel, steps: seq<Step>, t: Tid): seq<Step>
    requires Legal(k, steps)
    decreases |steps|
  {
    if steps == [] then []
    else
      var u := Next(k, steps[0]).0;
      (if T(k.s, t).state == Blocked && T(u.s, t).state != Blocked then [steps[0]] else []) + Wakeups(u, steps[1..], t)
  }

  /** What the caller will find: the wake-ups so far, and the answer the one of them wrote. */
  predicate Answers(k: Kernel, t: Tid, wakeups: seq<Step>) {
    if T(k.s, t).state == Blocked then wakeups == [] && T(k.s, t).answers == 0
    else |wakeups| == 1 && T(k.s, t).answers == 1 && T(k.s, t).result == Answer(wakeups[0]) && T(k.s, t).event == None
  }

  lemma {:induction false} NoSecondAnswer(k: Kernel, steps: seq<Step>, t: Tid)
    requires Inv(k) && Legal(k, steps) && StaysInCall(k, steps, t)
    requires t in k.s.tasks && InKernel(T(k.s, t).call) && T(k.s, t).state != Blocked
    ensures Wakeups(k, steps, t) == [] && SameCall(k.s, Run(k, steps).s, t) && t in Run(k, steps).s.tasks
    decreases |steps|
  {
    if steps != [] {
      hide Inv, Enabled, Next, T, Finishes;
      SignalOrTimeout(k, steps[0], t);
      NextKeeps(k, steps[0]);
      NoSecondAnswer(Next(k, steps[0]).0, steps[1..], t);
    }
  }

  /**
   * From the block half on, for as long as the call has not resumed: the task is woken at most once, it is BLOCKED
   * exactly until then, and its answer is the one that step wrote, `Timeout` from a tick and `OK` from a signal.
   */
  lemma {:induction false} ExactlyOneAnswer(k: Kernel, steps: seq<Step>, t: Tid)
    requires Inv(k) && Legal(k, steps) && StaysInCall(k, steps, t) && t in k.s.tasks && T(k.s, t).state == Blocked
    ensures Answers(Run(k, steps), t, Wakeups(k, steps, t))
    ensures T(Run(k, steps).s, t).call == T(k.s, t).call
    decreases |steps|
  {
    hide Inv, Enabled, Next, T, Finishes;
    BlockedInCall(k, t);
    if steps != [] {
      SignalOrTimeout(k, steps[0], t);
      NextKeeps(k, steps[0]);
      var u := Next(k, steps[0]).0;
      if T(u.s, t).state == Blocked { ExactlyOneAnswer(u, steps[1..], t); } else { NoSecondAnswer(u, steps[1..], t); }
    }
  }

  /** When the resume half runs, the one answer is in place; a lock's test of the owner agrees with it. */
  lemma ResumeFindsOneAnswer(k: Kernel, step: Step, t: Tid)
    requires Inv(k) && Enabled(k, step) && Finishes(k, step, t)
    ensures T(k.s, t).answers == 1 && T(k.s, t).event == None && T(k.s, t).link == Off
    ensures T(k.s, t).result == OK || (T(k.s, t).result == Timeout && Timed(T(k.s, t).call))
    ensures step.LockReturn? ==> (k.mutexes[step.m].owner == Some(t) <==> T(k.s, t).result == OK)
                                 && Next(k, step).1 == Returns(T(k.s, t).result)
  {
    SelfFacts(k);
    hide Linked, AllPlaced, SemsOk, QueuesOk, IdleOk, Leave, T;
    assert step.LockReturn? ==> (Owns(k, t, step.m) <==> T(k.s, t).result == OK);
  }

  // ---- runs: the deadline ----------------------------------------------------------------

  /** A wake tick `r` ahead of the clock is due at the next tick if `r` is 1, and also if it is too far ahead. */
  lemma DueAfterOneTick(tick: nat, r: nat)
    requires tick < U32 && 1 <= r < U32
    ensures SignedDiff(Ahead(tick, 1), Ahead(tick, r)) >= 0 <==> r == 1 || r > HALF + 1
  {
    var a, b := (tick + 1) % U32, (tick + r) % U32;
    var q1, q2 := (tick + 1) / U32, (tick + r) / U32;
    assert a == tick + 1 - U32 * q1 && b == tick + r - U32 * q2;
    assert a - b == 1 - r + U32 * (q2 - q1);
    ModShift(1 - r, q2 - q1);
    assert (a - b) % U32 == (1 - r) % U32 == if r == 1 then 0 else U32 + 1 - r;
  }

  /** The clock `r` ticks from now. */
  function Ahead(tick: nat, r: nat): nat { (tick + r) % U32 }

  /** `t` is on the delayed list, to be woken `r` ticks from now. */
  predicate DueIn(s: Sched, t: Tid, r: nat) {
    t in s.tasks && T(s, t).state == Blocked && T(s, t).link == OnDelayed && T(s, t).wake == Ahead(s.tick, r)
        && 1 <= r < U32
  }

  /** The number of ticks a timed wait takes: what was asked for, or 1 when that is beyond half the clock's range. */
  function WaitOf(r: nat): nat { if r <= HALF + 1 then r else 1 }

  lemma OneTickCloser(k: Kernel, t: Tid, r: nat)
    requires Inv(k) && DueIn(k.s, t, r)
    ensures WaitOf(r) == 1 ==> T(Tick(k.s), t) == TimedOut(T(k.s, t))
    ensures WaitOf(r) > 1 ==> DueIn(Tick(k.s), t, r - 1)
  {
    hide Inv, Linked, AllPlaced, Tick, Advanced, Ahead, SignedDiff, DueAt, Remaining, T, R, W;
    Delayed(k, t);
    MutexesOfInv(k);
    AdvancedTask(k.s, t);
    var u, due := TickFrame(k.s);
    DueAfterOneTick(k.s.tick, r);
    ClockStep(k.s.tick, r);
  }

  lemma AdvancedTask(s: Sched, t: Tid)
    ensures T(Advanced(s), t) == T(s, t) && Advanced(s).tick == Ahead(s.tick, 1) == (s.tick + 1) % U32
  {}

  lemma ClockStep(tick: nat, r: nat)
    requires tick < U32 && 1 <= r
    ensures Ahead(Ahead(tick, 1), r - 1) == Ahead(tick, r)
  {
    if tick + 1 == U32 { ModShift(r - 1, 1); }
  }

  lemma Delayed(k: Kernel, t: Tid)
    requires Inv(k) && t in k.s.tasks && T(k.s, t).link == OnDelayed
    ensures t in k.s.delayed && k.s.tick < U32
  {}

  function TicksIn(steps: seq<Step>): nat {
    if steps == [] then 0 else (if steps[0] == SysTick then 1 else 0) + TicksIn(steps[1..])
  }

  /** No step of the run other than a tick wakes `t`. */
  predicate Unsignalled(k: Kernel, steps: seq<Step>, t: Tid)
    requires Legal(k, steps)
    decreases |steps|
  {
    steps != [] ==>
      && (steps[0] != SysTick && T(k.s, t).state == Blocked ==> T(Next(k, steps[0]).0.s, t).state == Blocked)
      && Unsignalled(Next(k, steps[0]).0, steps[1..], t)
  }

  lemma ClockStandsStill(k: Kernel, step: Step)
    requires Inv(k) && Enabled(k, step) && step != SysTick
    ensures Next(k, step).0.s.tick == k.s.tick
  {
    hide Inv, Enabled, Next;
    var u := EveryStep(k, step);
  }

  /** Unsignalled, a timed wait is still on before its deadline... */
  lemma {:induction false} SleepsUntilDeadline(k: Kernel, steps: seq<Step>, t: Tid, r: nat)
    requires Inv(k) && Legal(k, steps) && DueIn(k.s, t, r) && Unsignalled(k, steps, t) && TicksIn(steps) < WaitOf(r)
    ensures Inv(Run(k, steps)) && DueIn(Run(k, steps).s, t, r - TicksIn(steps))
    ensures TicksIn(steps) > 0 ==> r <= HALF + 1
    decreases |steps|
  {
    hide Inv, Enabled, Next, DueIn, T;
    DueRange(k.s, t, r);
    if steps != [] {
      var u := Next(k, steps[0]).0;
      NextKeeps(k, steps[0]);
      if steps[0] == SysTick {
        OneTickCloser(k, t, r);
        TickIsNext(k);
        DueRange(u.s, t, r - 1);
        SleepsUntilDeadline(u, steps[1..], t, r - 1);
      } else {
        DueUntouched(k, steps[0], t, r);
        SleepsUntilDeadline(u, steps[1..], t, r);
      }
    }
  }

  lemma DueRange(s: Sched, t: Tid, r: nat)
    requires DueIn(s, t, r)
    ensures 1 <= r < U32
  {}

  lemma DueUntouched(k: Kernel, step: Step, t: Tid, r: nat)
    requires Inv(k) && Enabled(k, step) && step != SysTick && DueIn(k.s, t, r)
    requires T(k.s, t).state == Blocked ==> T(Next(k, step).0.s, t).state == Blocked
    ensures DueIn(Next(k, step).0.s, t, r)
  {
    hide Inv, Enabled, Next, Ahead, T;
    BlockedInCall(k, t);
    SignalOrTimeout(k, step, t);
    ClockStandsStill(k, step);
  }

  lemma TickIsNext(k: Kernel)
    ensures Enabled(k, SysTick) && Next(k, SysTick).0.s == Tick(k.s)
  {}

  /** ... and the tick that completes it makes the task READY with a timeout, off both lists. */
  lemma WakesAtDeadline(k: Kernel, steps: seq<Step>, t: Tid, r: nat)
    requires Inv(k) && Legal(k, steps) && DueIn(k.s, t, r) && Unsignalled(k, steps, t)
    requires TicksIn(steps) == WaitOf(r) - 1
    ensures var u := Run(k, steps).s; T(Tick(u), t) == TimedOut(T(u, t)) && T(u, t).state == Blocked
  {
    hide Inv, Legal, Unsignalled, Run, Tick, T;
    SleepsUntilDeadline(k, steps, t, r);
    OneTickCloser(Run(k, steps), t, r - TicksIn(steps));
  }

  /** Every timed wait starts with its deadline as far ahead as the caller asked for, and any other with none. */
  lemma BlockSetsDeadline(k: Kernel, step: Step)
    requires Inv(k) && Enabled(k, step) && Next(k, step).1 == Waits
    ensures var u, t, wait := Next(k, step).0, Self(k), Patience(step);
      && Inv(u) && t in u.s.tasks && T(u.s, t).state == Blocked && T(u.s, t).call == CallOf(step)
      && (wait.Some? ==> DueIn(u.s, t, wait.value)) && (wait == None ==> T(u.s, t).link == Off)
  {
    hide Inv, JoinsInOrder, TaskCode, Resumed, T, R, W;
    WaitsExactly(k, step);
    AsksInRange(k, step);
    CallerExists(k, step);
    hide Next, Enabled, Blocks, Patience, ListOf, CallOf;
    NextKeeps(k, step);
    SleepsAsAsked(k, step);
  }

  lemma AsksInRange(k: Kernel, step: Step)
    requires Enabled(k, step) && Blocks(k, step)
    ensures Patience(step).Some? ==> 1 <= Patience(step).value < U32
  {}

  lemma CallerExists(k: Kernel, step: Step)
    requires Inv(k) && Enabled(k, step) && Blocks(k, step)
    ensures Self(k) in k.s.tasks
  {
    SelfFacts(k);
  }

  /**
   * The deadline of nimble_task_delay and of every timed wait, from the arguments of the call: for a timeout of up to
   * 2^31 + 1 ticks, and no other, an unsignalled caller is woken by exactly that tick and by none before.
   */
  lemma ExactDeadline(k: Kernel, step: Step, steps: seq<Step>)
    requires Inv(k) && Enabled(k, step) && Next(k, step).1 == Waits && Patience(step).Some?
    requires var u := Next(k, step).0; Legal(u, steps) && Unsignalled(u, steps, Self(k))
    ensures var u, t, asked := Next(k, step).0, Self(k), Patience(step).value;
      && (TicksIn(steps) < WaitOf(asked) ==> T(Run(u, steps).s, t).state == Blocked)
      && (TicksIn(steps) == WaitOf(asked) - 1 ==> T(Tick(Run(u, steps).s), t) == TimedOut(T(Run(u, steps).s, t)))
      && (WaitOf(asked) == asked <==> asked <= HALF + 1)
  {
    hide Inv, Enabled, Next, Legal, Unsignalled, Run, Tick, Patience, T;
    BlockSetsDeadline(k, step);
    var u, t, asked := Next(k, step).0, Self(k), Patience(step).value;
    DueRange(u.s, t, asked);
    if TicksIn(steps) < WaitOf(asked) { SleepsUntilDeadline(u, steps, t, asked); }
    if TicksIn(steps) == WaitOf(asked) - 1 { WakesAtDeadline(u, steps, t, asked); }
  }

  /** A call that waits for ever waits for a signal: no number of ticks ends it. */
  lemma WaitsForever(k: Kernel, step: Step, steps: seq<Step>)
    requires Inv(k) && Enabled(k, step) && Next(k, step).1 == Waits && Patience(step) == None
    requires var u := Next(k, step).0; Legal(u, steps) && Unsignalled(u, steps, Self(k))
    ensures var u := Run(Next(k, step).0, steps); T(u.s, Self(k)).state == Blocked
  {
    hide Inv, Enabled, Next, Legal, Unsignalled, Run, Patience, T;
    BlockSetsDeadline(k, step);
    NeverDue(Next(k, step).0, steps, Self(k));
  }

  lemma {:induction false} NeverDue(k: Kernel, steps: seq<Step>, t: Tid)
    requires Inv(k) && Legal(k, steps) && Unsignalled(k, steps, t)
    requires t in k.s.tasks && T(k.s, t).state == Blocked && T(k.s, t).link == Off
    ensures T(Run(k, steps).s, t).state == Blocked
    decreases |steps|
  {
    hide Inv, Enabled, Next, T;
    if steps != [] {
      var u := Next(k, steps[0]).0;
      NextKeeps(k, steps[0]);
      BlockedInCall(k, t);
      SignalOrTimeout(k, steps[0], t);
      if steps[0] == SysTick { NotDelayed(k, t); }
      NeverDue(u, steps[1..], t);
    }
  }

  lemma NotDelayed(k: Kernel, t: Tid)
    requires Inv(k) && T(k.s, t).link == Off
    ensures T(Next(k, SysTick).0.s, t) == T(k.s, t)
  {
    hide Inv, Linked, AllPlaced, Tick, Advanced, DueAt, Remaining, Due, T, R, W;
    MutexesOfInv(k);
    DelayedIsBlocked(k.s);
    TickIsNext(k);
    var u, due := TickFrame(k.s);
  }
}

/**
 * The kernel and the processor together: every switch goes to the task `select_next` picks, and a task that is picked
 * again finds the registers it was switched out with.
 */
module Multitasking {
  import opened Base
  import opened Scheduler
  import opened Membership
  import opened Ticking
  import opened Kernel
  import opened Invariants
  import opened Effects
  import C = Context

  datatype System = System(k: Kernel, m: C.Machine)

  datatype Event =
    | Work(step: Step, mem: seq<C.Word>, regs: C.Regs)   // a step of the kernel, run on the current task's registers
    | NewTask(t: Tid, prio: nat, stack: C.Stack, fn: C.Word, arg: C.Word, trap: C.Word)
    | Dispatch   // PendSV, or SVC the first time, to the task select_next picks

  ghost predicate Can(y: System, e: Event) {
    match e
    case Work(step, mem, regs) =>
      && step != Switch && !step.Create? && Enabled(y.k, step)
      && (y.m.cur.Some? ==> C.Allowed(y.m, C.Execute(mem, regs)))
    case NewTask(t, prio, stack, fn, arg, trap) =>
      && Enabled(y.k, Create(t, prio))
      && (prio < MAX_PRIORITIES ==> C.Allowed(y.m, C.CreateTask(t, stack, fn, arg, trap)))
    case Dispatch => Enabled(y.k, Switch)
  }

  /** The two halves of the system agree on who runs and on which tasks there are. */
  ghost predicate Joined(y: System) {
    Inv(y.k) && C.Valid(y.m) && y.m.cur == y.k.s.cur && y.m.sp.Keys == y.k.s.tasks.Keys
  }

  /** What the event is to the processor. */
  function ProcessorStep(y: System, e: Event): Option<C.Step>
    requires e == Dispatch ==> CanDispatch(y.k.s)
  {
    match e
    case Work(_, mem, regs) => if y.m.cur.Some? then Some(C.Execute(mem, regs)) else None
    case NewTask(t, prio, stack, fn, arg, trap) =>
      if prio < MAX_PRIORITIES then Some(C.CreateTask(t, stack, fn, arg, trap)) else None
    case Dispatch => Some(if y.m.cur.Some? then C.SwitchTo(Chosen(y.k.s)) else C.StartFirst(Chosen(y.k.s)))
  }

  function KernelStep(e: Event): Step {
    match e
    case Work(step, _, _) => step
    case NewTask(t, prio, _, _, _, _) => Create(t, prio)
    case Dispatch => Switch
  }

  /** What a step of the kernel does to the set of tasks and to the current one. */
  lemma WhoIsThere(k: Kernel, step: Step) returns (u: Sched)
    requires Inv(k) && Enabled(k, step)
    ensures u == Next(k, step).0.s && u.cur == if step == Switch then Some(Chosen(k.s)) else k.s.cur
    ensures u.tasks.Keys ==
      if step.Create? && step.prio < MAX_PRIORITIES then k.s.tasks.Keys + {step.t} else k.s.tasks.Keys
    ensures step == Switch ==> Chosen(k.s) in k.s.tasks
  {
    hide Inv, Placed, TaskCode, CanDispatch, SelectNext, SuspendTask, ResumeTask, Chosen, MutexLock, MutexUnlock,
         MutexLockReturn, T, R, W;
    u := Next(k, step).0.s;
    match step
    case Switch => var t, v; t, v, u := SwitchView(k);
    case Suspend(t) => u := SuspendEffect(k.s, t);
    case Resume(t) => u := ResumeEffect(k.s, t);
    case Lock(m, timeout) => u := LockEffect(k, m, timeout);
    case Unlock(m) => var w; u, w := UnlockEffect(k, m);
    case LockReturn(m) => u := LockReturnEffect(k, m);
    case Create(t, prio) => NewIsThere(k.s, t, prio);
    case _ => OthersStay(k, step);
  }

  lemma NewIsThere(s: Sched, t: Tid, prio: nat)
    ensures CreateTask(s, t, prio).tasks.Keys == s.tasks.Keys + {t} && CreateTask(s, t, prio).cur == s.cur
  {}

  lemma OthersStay(k: Kernel, step: Step)
    requires Inv(k) && Enabled(k, step) && NoMutex(step) && !Rearranges(step) && !step.Create?
    ensures Next(k, step).0.s.tasks.Keys == k.s.tasks.Keys && Next(k, step).0.s.cur == k.s.cur
  {
    hide Inv, Linked, AllPlaced, Placed, TaskCode, Blocks, Tick, BlockOn, WakeWaiter, Leave, CopyIn, CopyOut, T, R, W;
    MutexesOfInv(k);
    var u := k.s;
    if Blocks(k, step) { u := BlockEffect(k, step); }
    else {
      WaitsExactly(k, step);
      match step
      case SysTick => var due; u, due := TickFrame(k.s);
      case Give(id) => u := WokenFrame(k.s, SemWaiters(id));
      case GiveFromIsr(id) => u := WokenFrame(k.s, SemWaiters(id));
      case Send(q, _, _) => u := WokenFrame(k.s, Receivers(q));
      case SendFromIsr(q, _) => u := WokenFrame(k.s, Receivers(q));
      case Receive(q, _) => u := WokenFrame(k.s, Senders(q));
      case DelayReturn => SelfFacts(k); u := LeaveFrame(k.s, Self(k));
      case TakeReturn(_) => SelfFacts(k); u := LeaveFrame(k.s, Self(k));
      case SendReturn(_) => SelfFacts(k); u := LeaveFrame(k.s, Self(k));
      case ReceiveReturn(_) => SelfFacts(k); u := LeaveFrame(k.s, Self(k));
      case _ =>
    }
  }

  // ---- one event -------------------------------------------------------------------------

  lemma StepAllowed(y: System, e: Event)
    requires Joined(y) && Can(y, e)
    ensures Enabled(y.k, KernelStep(e)) && (e == Dispatch ==> CanDispatch(y.k.s))
    ensures ProcessorStep(y, e).Some? ==> C.Allowed(y.m, ProcessorStep(y, e).value)
  {
    hide Inv, C.Valid, CanDispatch, Chosen;
    if e == Dispatch { var u := WhoIsThere(y.k, Switch); }
  }

  ghost function Happens(y: System, e: Event): System
    requires Joined(y) && Can(y, e)
  {
    StepAllowed(y, e);
    System(Next(y.k, KernelStep(e)).0,
           if ProcessorStep(y, e).Some? then C.After(y.m, ProcessorStep(y, e).value) else y.m)
  }

  /** The next task of every switch is a task with a saved context, and the halves stay together. */
  lemma KeepsJoined(y: System, e: Event)
    requires Joined(y) && Can(y, e)
    ensures Joined(Happens(y, e))
  {
    hide Inv, C.Valid, C.Allowed, Enabled, Next, Chosen, CanDispatch, C.Written, C.Switched, C.Started;
    StepAllowed(y, e);
    NextKeeps(y.k, KernelStep(e));
    var s := WhoIsThere(y.k, KernelStep(e));
    if ProcessorStep(y, e).Some? {
      C.StepKeepsValid(y.m, ProcessorStep(y, e).value);
      WhoRuns(y.m, ProcessorStep(y, e).value);
    }
    if e.NewTask? { OnlyThen(y, e); }
  }

  lemma WhoRuns(m: C.Machine, step: C.Step)
    requires C.Valid(m) && C.Allowed(m, step)
    ensures var u := C.After(m, step);
      && u.cur == (match step case SwitchTo(next) => Some(next) case StartFirst(next) => Some(next) case _ => m.cur)
      && u.sp.Keys == if step.CreateTask? then m.sp.Keys + {step.t} else m.sp.Keys
  {
    if step.SwitchTo? { C.SwitchWrites(m, step.next); }
  }

  lemma OnlyThen(y: System, e: Event)
    requires e.NewTask?
    ensures ProcessorStep(y, e).Some? <==> e.prio < MAX_PRIORITIES
  {}

  /** nimble_scheduler_init leaves the idle task, with its stack, and nobody running. */
  lemma StartsJoined(y: System)
    requires Boot(y.k) && C.Valid(y.m) && y.m.cur == None && y.m.sp.Keys == {IDLE}
    ensures Joined(y)
  {
    BootInv(y.k);
    NewIsThere(Sched(map[], map[], {}, [], map[], 0, None, 0), IDLE, 0);
  }

  // ---- runs ------------------------------------------------------------------------------

  /** A run of the system in which `t` is never the current task. */
  ghost predicate Away(y: System, events: seq<Event>, t: Tid)
    requires Joined(y)
    decreases |events|
  {
    y.k.s.cur != Some(t) && (events != [] ==>
      Can(y, events[0]) && (KeepsJoined(y, events[0]); Away(Happens(y, events[0]), events[1..], t)))
  }

  ghost function After(y: System, events: seq<Event>, t: Tid): System
    requires Joined(y) && Away(y, events, t)
    decreases |events|
  {
    if events == [] then y else KeepsJoined(y, events[0]); After(Happens(y, events[0]), events[1..], t)
  }

  lemma SavedByEvent(y: System, e: Event, t: Tid)
    requires Joined(y) && Can(y, e) && t in y.m.sp && y.m.cur != Some(t) && Happens(y, e).m.cur != Some(t)
    ensures var u := Happens(y, e).m; C.Valid(u) && t in u.sp && C.SavedRegs(u, t) == C.SavedRegs(y.m, t)
  {
    hide Inv, C.Allowed, C.After, C.SavedRegs, Enabled, Next, Chosen, CanDispatch;
    StepAllowed(y, e);
    if ProcessorStep(y, e).Some? { C.StepKeepsSaved(y.m, ProcessorStep(y, e).value, t); }
  }

  lemma {:induction false} SavedWhileAway(y: System, events: seq<Event>, t: Tid)
    requires Joined(y) && t in y.m.sp && Away(y, events, t)
    ensures var u := After(y, events, t);
      Joined(u) && t in u.m.sp && u.m.cur != Some(t) && C.SavedRegs(u.m, t) == C.SavedRegs(y.m, t)
    decreases |events|
  {
    hide Inv, C.SavedRegs, Happens, Can;
    if events != [] {
      KeepsJoined(y, events[0]);
      var u := Happens(y, events[0]);
      assert u.k.s.cur != Some(t);
      SavedByEvent(y, events[0], t);
      SavedWhileAway(u, events[1..], t);
    }
  }

  lemma StackByEvent(y: System, e: Event, t: Tid)
    requires Joined(y) && Can(y, e) && t in y.m.stacks && y.m.cur != Some(t)
    ensures C.SameStack(y.m, Happens(y, e).m, t, y.m.stacks[t].base)
  {
    hide Inv, C.Allowed, C.After, Enabled, Next, Chosen, CanDispatch;
    StepAllowed(y, e);
    if ProcessorStep(y, e).Some? { C.StepKeepsStack(y.m, ProcessorStep(y, e).value, t); }
  }

  lemma {:induction false} StackWhileAway(y: System, events: seq<Event>, t: Tid)
    requires Joined(y) && t in y.m.stacks && Away(y, events, t)
    ensures C.SameStack(y.m, After(y, events, t).m, t, y.m.stacks[t].base)
    decreases |events|
  {
    hide Inv, C.Valid, Happens, Can;
    if events != [] {
      KeepsJoined(y, events[0]);
      StackByEvent(y, events[0], t);
      StackWhileAway(Happens(y, events[0]), events[1..], t);
    }
  }

  lemma StackKnown(y: System, t: Tid)
    requires Joined(y)
    ensures (t in y.m.stacks <==> t in y.m.sp) && y.m.cur == y.k.s.cur
    ensures y.m.cur == Some(t) ==> t in y.m.stacks && y.m.stacks[t].base <= y.m.regs.psp
  {
    C.StacksKnown(y.m);
  }

  lemma {:induction false} StaysOff(y: System, events: seq<Event>, t: Tid)
    requires Joined(y) && Away(y, events, t)
    ensures Joined(After(y, events, t)) && After(y, events, t).k.s.cur != Some(t)
    decreases |events|
  {
    hide Inv, C.Valid, Happens, Can;
    if events != [] { KeepsJoined(y, events[0]); StaysOff(Happens(y, events[0]), events[1..], t); }
  }

  /** The processor's half of a dispatch. */
  lemma DispatchSwitches(y: System)
    requires Joined(y) && Can(y, Dispatch)
    ensures CanDispatch(y.k.s) && Chosen(y.k.s) in y.m.sp
    ensures y.m.cur.Some? ==> Happens(y, Dispatch).m == C.Switched(y.m, Chosen(y.k.s))
    ensures y.m.cur == None ==> Happens(y, Dispatch).m == C.Started(y.m, Chosen(y.k.s))
    ensures Happens(y, Dispatch).m.cur == Some(Chosen(y.k.s))
  {
    hide Inv, C.Valid, C.Switched, C.Started, Next, Chosen, CanDispatch;
    StepAllowed(y, Dispatch);
    var s := WhoIsThere(y.k, Switch);
    WhoRuns(y.m, ProcessorStep(y, Dispatch).value);
  }

  /**
   * Over runs in which `select_next` decides: a task that is switched out, and is later the one picked again, is
   * resumed with every register as it was, whatever tasks, interrupts and the kernel did in between.
   */
  lemma ResumesWithItsRegisters(y: System, out: System, events: seq<Event>, back: System, t: Tid)
    requires Joined(y) && y.k.s.cur == Some(t) && CanDispatch(y.k.s) && Chosen(y.k.s) != t && Can(y, Dispatch)
    requires out == Happens(y, Dispatch) && Joined(out) && Away(out, events, t) && back == After(out, events, t)
    requires back.k.s.cur.Some? && CanDispatch(back.k.s) && Chosen(back.k.s) == t
    ensures Joined(back) && Can(back, Dispatch)
    ensures var z := Happens(back, Dispatch); z.k.s.cur == Some(t) == z.m.cur && z.m.regs == y.m.regs
  {
    hide Inv, C.Valid, C.SavedRegs, C.Switched, Happens, Away, After, Chosen, CanDispatch;
    DispatchSwitches(y);
    C.SwitchSaves(y.m, Chosen(y.k.s));
    SwitchedHas(y.m, Chosen(y.k.s), t);
    SavedWhileAway(out, events, t);
    DispatchSwitches(back);
    KeepsJoined(back, Dispatch);
    C.SwitchRestores(back.m, t);
  }

  /** And its stack, from its stack pointer up, is as it was, word by word. */
  lemma ResumesWithItsStack(y: System, out: System, events: seq<Event>, back: System, t: Tid)
    requires Joined(y) && y.k.s.cur == Some(t) && CanDispatch(y.k.s) && Chosen(y.k.s) != t && Can(y, Dispatch)
    requires out == Happens(y, Dispatch) && Joined(out) && Away(out, events, t) && back == After(out, events, t)
    requires back.k.s.cur.Some? && CanDispatch(back.k.s) && Chosen(back.k.s) == t
    ensures Joined(back) && Can(back, Dispatch)
    ensures C.SameStack(y.m, Happens(back, Dispatch).m, t, y.m.regs.psp)
  {
    hide Inv, C.Valid, C.SavedRegs, C.Switched, Happens, Away, After, Chosen, CanDispatch;
    ResumesWithItsRegisters(y, out, events, back, t);
    StackKnown(y, t);
    DispatchSwitches(y);
    C.SwitchKeepsStack(y.m, Chosen(y.k.s), t);
    StackWhileAway(out, events, t);
    DispatchSwitches(back);
    C.SwitchKeepsStack(back.m, t, t);
    StaysOff(out, events, t);
  }

  lemma SwitchedHas(m: C.Machine, next: Tid, t: Tid)
    requires C.Valid(m) && m.cur == Some(t) && next in m.sp
    ensures t in C.Switched(m, next).sp
  {}

  /** And a task that has never run starts at its function, with its argument, when it is picked for the first time. */
  lemma StartsAtItsEntry(y: System, e: Event, events: seq<Event>, u: System)
    requires Joined(y) && e.NewTask? && e.prio < MAX_PRIORITIES && Can(y, e)
    requires Joined(Happens(y, e)) && Away(Happens(y, e), events, e.t) && u == After(Happens(y, e), events, e.t)
    requires CanDispatch(u.k.s) && Chosen(u.k.s) == e.t
    ensures Joined(u) && Can(u, Dispatch) && Happens(u, Dispatch).k.s.cur == Some(e.t)
    ensures C.AtEntry(Happens(u, Dispatch).m.regs, e.stack, e.fn, e.arg, e.trap)
  {
    hide Inv, C.Valid, C.SavedRegs, C.Switched, C.Started, C.Created, C.AtEntry, Away, After, Chosen, CanDispatch;
    StepAllowed(y, e);
    C.CreatedSaved(y.m, e.t, e.stack, e.fn, e.arg, e.trap);
    hide Happens;
    SavedWhileAway(Happens(y, e), events, e.t);
    DispatchSwitches(u);
    KeepsJoined(u, Dispatch);
    if u.m.cur.Some? { C.SwitchRestores(u.m, e.t); } else { C.StartRestores(u.m, e.t); }
  }
}

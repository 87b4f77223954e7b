/**
 * The timer service inside the kernel: its task computes a wait, sleeps on its semaphore and drains;
 * other tasks start, stop and reset timers in between. The task never sleeps past the soonest timer.
 */
module TimerService {
  import opened Base
  import opened Sequences
  import opened Scheduler
  import opened Membership
  import opened Ticking
  import opened Kernel
  import opened Invariants
  import opened Signals
  import opened Handover
  import opened Effects
  import opened Timers

  const SERVICE: Tid := 1     // timer_task_tcb
  const WAKE: nat := 0        // timer_wake_sem

  /** Where the service task is in its loop; `slip` counts the ticks between computing the wait and blocking. */
  datatype Pc = Computing | Sleeping(wait: nat, slip: nat) | Draining | Calling

  datatype World = World(k: Kernel, v: Service, pc: Pc)

  datatype Event =
    | Kern(step: Step)
    | Compute | Sleep | Wake | Pass | CallbackEnds
    | StartTimer(id: Id) | GiveWake | StopTimer(id: Id) | SetTimerPeriod(id: Id, period: nat)

  predicate ServiceCode(w: World) { TaskCode(w.k) && Self(w.k) == SERVICE }

  /** Application code: any task, and the service's own only inside a callback. */
  predicate AppCode(w: World) { TaskCode(w.k) && (Self(w.k) == SERVICE ==> w.pc == Calling) }

  /** The semaphore is private to timer.c. */
  predicate UsesWake(step: Step) {
    match step
    case Take(id, _) => id == WAKE
    case TakeReturn(id) => id == WAKE
    case Give(id) => id == WAKE
    case GiveFromIsr(id) => id == WAKE
    case _ => false
  }

  predicate Can(w: World, e: Event) {
    match e
    case Kern(step) => Enabled(w.k, step) && !UsesWake(step) && (Actor(w.k, step) == Some(SERVICE) ==> w.pc == Calling)
    case Compute => ServiceCode(w) && w.pc == Computing
    case Sleep => ServiceCode(w) && w.pc.Sleeping? && WAKE in w.k.sems
    case Wake => Enabled(w.k, TakeReturn(WAKE)) && Self(w.k) == SERVICE
    case Pass => ServiceCode(w) && w.pc == Draining
    case CallbackEnds => ServiceCode(w) && w.pc == Calling
    case StartTimer(id) => AppCode(w) && id in w.v.timers
    case GiveWake => Resumed(w.k) && T(w.k.s, Self(w.k)).call == StartingTimer && WAKE in w.k.sems
    case StopTimer(id) => AppCode(w) && id in w.v.timers
    case SetTimerPeriod(id, period) => AppCode(w) && id in w.v.timers && period < U32
  }

  function Now(w: World): nat { w.k.s.tick }

  /** The give of a start, and the return from it. */
  function GiveAndLeave(k: Kernel): Kernel
    requires WAKE in k.sems
  {
    var u := SemGive(k, WAKE).0;
    u.(s := Enter(u.s, Self(k), NoCall))
  }

  function Happens(w: World, e: Event): World
    requires Can(w, e)
  {
    match e
    case Kern(step) =>
      var waiting := step == SysTick && w.pc.Sleeping? && T(w.k.s, SERVICE).call == NoCall;
      World(Next(w.k, step).0, w.v, if waiting then Sleeping(w.pc.wait, w.pc.slip + 1) else w.pc)
    case Compute => w.(pc := Sleeping(WaitTicks(w.v, Now(w)), 0))
    case Sleep =>
      var (k, out) := SemTake(w.k, WAKE, w.pc.wait);
      w.(k := k, pc := if out == Waits then w.pc else Draining)
    case Wake => w.(k := SemTakeReturn(w.k).0, pc := Draining)
    case Pass => if HeadDue(w.v, Now(w)) then w.(v := FireHead(w.v, Now(w)), pc := Calling) else w.(pc := Computing)
    case CallbackEnds => w.(pc := Draining)
    case StartTimer(id) =>
      var v := Start(w.v, id, Now(w));
      w.(v := v, k := if v.active[0] == id then w.k.(s := Enter(w.k.s, Self(w.k), StartingTimer)) else w.k)
    case GiveWake => w.(k := GiveAndLeave(w.k))
    case StopTimer(id) => w.(v := Stop(w.v, id))
    case SetTimerPeriod(id, period) => w.(v := SetPeriod(w.v, id, period))
  }

  // ---- the invariant ---------------------------------------------------------------------

  predicate InWake(s: Sched, t: Tid) {
    InKernel(T(s, t).call) && WaitsOn(T(s, t).call) == Some(SemWaiters(WAKE))
  }

  /** Only the service sleeps on its semaphore, and only where its loop says so. */
  ghost predicate ServiceOk(w: World) {
    && Inv(w.k) && SERVICE in w.k.s.tasks && WAKE in w.k.sems && w.k.sems[WAKE].max >= 1
    && (forall t :: t in w.k.s.tasks && InWake(w.k.s, t) ==> t == SERVICE)
    && (w.pc != Calling ==>
          (T(w.k.s, SERVICE).call == NoCall || (w.pc.Sleeping? && T(w.k.s, SERVICE).call == Taking(WAKE, w.pc.wait))))
    && (w.pc == Calling ==> !InWake(w.k.s, SERVICE))
    && (w.pc.Sleeping? ==> w.pc.wait == WAIT_FOREVER || w.pc.wait < HALF)
    && (w.pc.Sleeping? && InWake(w.k.s, SERVICE) ==> w.pc.wait > 0)
  }

  predicate GiveOutstanding(s: Sched) {
    exists t :: t in s.tasks && T(s, t).call == StartingTimer
  }

  /** The service is on its way back from its sleep. */
  predicate Waking(s: Sched) { InWake(s, SERVICE) && T(s, SERVICE).state != Blocked }

  function HeadLead(w: World): int
    requires w.v.active != []
  {
    Lead(w.v, w.v.active[0], Now(w))
  }

  /** The sleep ends no later than `slip` ticks after the soonest timer. */
  ghost predicate InTime(w: World)
    requires w.v.active != [] && w.pc.Sleeping?
  {
    if InWake(w.k.s, SERVICE) then exists r: nat :: DueIn(w.k.s, SERVICE, r) && r < HALF && r <= HeadLead(w) + w.pc.slip
    else w.pc.wait < HALF && w.pc.wait <= HeadLead(w) + w.pc.slip
  }

  /** Why the service does not oversleep. */
  ghost predicate WontOversleep(w: World) {
    w.pc.Sleeping? ==>
      || GiveOutstanding(w.k.s) || (WAKE in w.k.sems && w.k.sems[WAKE].count > 0) || Waking(w.k.s)
      || w.pc.wait == NO_WAIT || w.v.active == [] || InTime(w)
  }

  ghost predicate WorldOk(w: World) {
    ServiceOk(w) && ListOk(w.v, Now(w)) && WontOversleep(w)
  }

  // ---- kernel steps ----------------------------------------------------------------------

  lemma KernKeepsService(w: World, step: Step)
    requires ServiceOk(w) && Can(w, Kern(step))
    ensures ServiceOk(Happens(w, Kern(step)))
  {
    hide Inv, Enabled, Next, T, W, UsesWake;
    var u := Happens(w, Kern(step));
    NextKeeps(w.k, step);
    StaysKnown(w.k, step);
    WakeUntouched(w.k, step);
    forall t | t in u.k.s.tasks && InWake(u.k.s, t) ensures t in w.k.s.tasks && T(w.k.s, t).call == T(u.k.s, t).call {
      NewWaiter(w.k, step, t, SemWaiters(WAKE));
    }
    if w.pc != Calling { CallKept(w.k, step, SERVICE); }
  }

  lemma WakeUntouched(k: Kernel, step: Step)
    requires Inv(k) && Enabled(k, step) && WAKE in k.sems && !UsesWake(step)
    ensures WAKE in Next(k, step).0.sems && Next(k, step).0.sems[WAKE] == k.sems[WAKE]
    ensures Joins(step) != Some(SemWaiters(WAKE)) && Wakes(k, step) != Some(SemWaiters(WAKE))
  {
    hide Inv, CanDispatch, TaskCode, Resumed, SelectNext, Tick, BlockOn, Leave, WakeWaiter, CreateTask, SuspendTask,
         ResumeTask, T, W, CopyIn, CopyOut, MutexLock, MutexUnlock;
    match step
    case Lock(m, timeout) => LockEnds(k, m, timeout);
    case Unlock(m) => UnlockEnds(k, m);
    case _ =>
  }

  lemma OutstandingStays(k: Kernel, step: Step)
    requires Inv(k) && Enabled(k, step) && GiveOutstanding(k.s)
    ensures GiveOutstanding(Next(k, step).0.s)
  {
    var t :| t in k.s.tasks && T(k.s, t).call == StartingTimer;
    if Actor(k, step) == Some(t) { StartingDoesNotAct(k, step, t); }
    hide Inv, Enabled, Next, T;
    CallKept(k, step, t);
  }

  lemma StartingDoesNotAct(k: Kernel, step: Step, t: Tid)
    requires Enabled(k, step) && Actor(k, step) == Some(t)
    ensures T(k.s, t).call != StartingTimer
  {}

  lemma WakingStays(w: World, step: Step)
    requires ServiceOk(w) && Can(w, Kern(step)) && w.pc.Sleeping? && Waking(w.k.s)
    ensures Waking(Next(w.k, step).0.s)
  {
    ServiceFinishesElsewhere(w, step);
    hide Inv, Enabled, Next, T;
    SignalOrTimeout(w.k, step, SERVICE);
  }

  /** While it sleeps on its semaphore, no kernel step is the service's own. */
  lemma ServiceFinishesElsewhere(w: World, step: Step)
    requires Can(w, Kern(step)) && w.pc.Sleeping?
    ensures !Finishes(w.k, step, SERVICE) && Actor(w.k, step) != Some(SERVICE)
  {}

  lemma KernKeepsInTime(w: World, step: Step)
    requires ServiceOk(w) && ListOk(w.v, Now(w)) && InWindow(w.v, Now(w)) && Can(w, Kern(step))
    requires w.pc.Sleeping? && w.v.active != [] && InTime(w)
    ensures var u := Happens(w, Kern(step)); Waking(u.k.s) || InTime(u)
  {
    if step == SysTick { TickKeepsInTime(w); } else { StepKeepsInTime(w, step); }
  }

  lemma TickKeepsInTime(w: World)
    requires ServiceOk(w) && ListOk(w.v, Now(w)) && InWindow(w.v, Now(w)) && Can(w, Kern(SysTick))
    requires w.pc.Sleeping? && w.v.active != [] && InTime(w)
    ensures var u := Happens(w, Kern(SysTick)); Waking(u.k.s) || InTime(u)
  {
    ServiceFinishesElsewhere(w, SysTick);
    TickLowersHead(w);
    hide Inv, InWindow, ListOk, Enabled, Next, DueIn, T, HeadLead;
    CallKept(w.k, SysTick, SERVICE);
    TickIsNext(w.k);
    if InWake(w.k.s, SERVICE) {
      var r: nat :| DueIn(w.k.s, SERVICE, r) && r < HALF && r <= HeadLead(w) + w.pc.slip;
      SleeperTicks(w.k, r);
    }
  }

  lemma TickLowersHead(w: World)
    requires ServiceOk(w) && ListOk(w.v, Now(w)) && InWindow(w.v, Now(w)) && Can(w, Kern(SysTick)) && w.v.active != []
    ensures HeadLead(Happens(w, Kern(SysTick))) == HeadLead(w) - 1
  {
    hide Inv, ListOk, Lead;
    TickKeepsList(w.v, Now(w));
    TickIsNext(w.k);
    TickMoves(w.k);
    assert w.v.active[0] in w.v.active;
  }

  lemma StepKeepsInTime(w: World, step: Step)
    requires ServiceOk(w) && Can(w, Kern(step)) && step != SysTick
    requires w.pc.Sleeping? && w.v.active != [] && InTime(w)
    ensures var u := Happens(w, Kern(step)); Waking(u.k.s) || InTime(u)
  {
    ServiceFinishesElsewhere(w, step);
    hide Inv, Enabled, Next, DueIn, T, Lead;
    CallKept(w.k, step, SERVICE);
    ClockStandsStill(w.k, step);
    if InWake(w.k.s, SERVICE) {
      var r: nat :| DueIn(w.k.s, SERVICE, r) && r < HALF && r <= HeadLead(w) + w.pc.slip;
      SleeperSteps(w.k, step, r);
    }
  }

  lemma TickMoves(k: Kernel)
    requires Inv(k)
    ensures Tick(k.s).tick == (k.s.tick + 1) % U32
  {
    hide Inv, Linked, AllPlaced, Tick, Advanced, Due, DueAt, Remaining, T, R, W;
    MutexesOfInv(k);
    var u, due := TickFrame(k.s);
  }

  lemma SleeperTicks(k: Kernel, r: nat)
    requires Inv(k) && DueIn(k.s, SERVICE, r) && InWake(k.s, SERVICE) && r < HALF
    ensures InWake(Tick(k.s), SERVICE)
    ensures if r == 1 then Waking(Tick(k.s)) else DueIn(Tick(k.s), SERVICE, r - 1)
  {
    hide Inv, Tick, DueIn;
    DueRange(k.s, SERVICE, r);
    OneTickCloser(k, SERVICE, r);
    TickKeepsCall(k, SERVICE);
  }

  lemma TickKeepsCall(k: Kernel, t: Tid)
    requires Inv(k)
    ensures T(Tick(k.s), t).call == T(k.s, t).call
  {
    hide Inv, Linked, AllPlaced, Tick, Advanced, Due, DueAt, Remaining, T, R, W;
    MutexesOfInv(k);
    var u, due := TickFrame(k.s);
  }

  lemma SleeperSteps(k: Kernel, step: Step, r: nat)
    requires Inv(k) && Enabled(k, step) && step != SysTick && DueIn(k.s, SERVICE, r) && InWake(k.s, SERVICE)
    requires !Finishes(k, step, SERVICE)
    ensures InWake(Next(k, step).0.s, SERVICE)
    ensures Waking(Next(k, step).0.s) || DueIn(Next(k, step).0.s, SERVICE, r)
  {
    DueMeansBlocked(k.s, SERVICE, r);
    hide Inv, Enabled, Next, DueIn, T;
    SignalOrTimeout(k, step, SERVICE);
    if T(Next(k, step).0.s, SERVICE).state == Blocked { DueUntouched(k, step, SERVICE, r); }
  }

  lemma DueMeansBlocked(s: Sched, t: Tid, r: nat)
    requires DueIn(s, t, r)
    ensures t in s.tasks && T(s, t).state == Blocked
  {}

  lemma KernKeepsWorld(w: World, step: Step)
    requires WorldOk(w) && InWindow(w.v, Now(w)) && Can(w, Kern(step))
    ensures WorldOk(Happens(w, Kern(step)))
  {
    hide ServiceOk, Spans, ListOk, GiveOutstanding, Waking, InTime, Happens, Can;
    KernKeepsService(w, step);
    KernFacts(w, step);
    var u := Happens(w, Kern(step));
    if step == SysTick { TickKeepsList(w.v, Now(w)); }
    if w.pc.Sleeping? {
      if GiveOutstanding(w.k.s) { OutstandingStays(w.k, step); }
      if Waking(w.k.s) { WakingStays(w, step); }
      if w.v.active != [] && InTime(w) { KernKeepsInTime(w, step); }
    }
  }

  lemma KernFacts(w: World, step: Step)
    requires ServiceOk(w) && Can(w, Kern(step))
    ensures Inv(w.k) && Enabled(w.k, step) && WAKE in w.k.sems && WAKE in Next(w.k, step).0.sems
    ensures var u := Happens(w, Kern(step));
      && u.k == Next(w.k, step).0 && u.v == w.v && u.k.sems[WAKE] == w.k.sems[WAKE]
      && Now(u) == (if step == SysTick then (Now(w) + 1) % U32 else Now(w))
      && (u.pc.Sleeping? <==> w.pc.Sleeping?) && (w.pc.Sleeping? ==> u.pc.wait == w.pc.wait)
  {
    hide Inv, Enabled, Next, T;
    WakeUntouched(w.k, step);
    if step == SysTick { TickIsNext(w.k); TickMoves(w.k); } else { ClockStandsStill(w.k, step); }
  }

  // ---- the service's own steps -----------------------------------------------------------

  lemma ServiceFacts(w: World)
    requires ServiceOk(w) && ServiceCode(w)
    ensures Inv(w.k) && T(w.k.s, SERVICE).call == NoCall && T(w.k.s, SERVICE).state == Running && w.k.s.tick < U32
  {
    SelfFacts(w.k);
  }

  lemma ComputeKeepsWorld(w: World)
    requires WorldOk(w) && Can(w, Compute)
    ensures WorldOk(Happens(w, Compute))
  {
    ServiceFacts(w);
    LeadRange(w.v, Now(w));
    hide Inv, ListOk, T, Lead;
  }

  lemma SleepBlocks(w: World)
    requires ServiceOk(w) && Can(w, Sleep) && SemTake(w.k, WAKE, w.pc.wait).1 == Waits
    ensures var u := Happens(w, Sleep);
      && u.pc == w.pc && u.v == w.v && Now(u) == Now(w) && u.k.sems == w.k.sems && w.pc.wait > 0
          && u.k.s.tasks.Keys == w.k.s.tasks.Keys
      && T(u.k.s, SERVICE).call == Taking(WAKE, w.pc.wait) && T(u.k.s, SERVICE).state == Blocked
      && (w.pc.wait < HALF ==> DueIn(u.k.s, SERVICE, w.pc.wait))
      && (forall t :: t != SERVICE ==> T(u.k.s, t) == T(w.k.s, t))
  {
    hide Inv, BlockOn, Placed, TaskCode, T, R, W, InsertWaiter;
    ServiceFacts(w);
    SelfFacts(w.k);
    var u := BlockOnFrame(w.k.s, SERVICE, Taking(WAKE, w.pc.wait));
  }

  lemma SleepKeepsInv(w: World)
    requires ServiceOk(w) && Can(w, Sleep)
    ensures Inv(SemTake(w.k, WAKE, w.pc.wait).0)
  {
    assert Enabled(w.k, Take(WAKE, w.pc.wait));
    NextKeeps(w.k, Take(WAKE, w.pc.wait));
  }

  lemma SleepKeepsWorld(w: World)
    requires WorldOk(w) && Can(w, Sleep)
    ensures WorldOk(Happens(w, Sleep))
  {
    hide Inv, ListOk, BlockOn, DueIn, TaskCode, T, Lead;
    ServiceFacts(w);
    SleepKeepsInv(w);
    var u := Happens(w, Sleep);
    if SemTake(w.k, WAKE, w.pc.wait).1 == Waits {
      SleepBlocks(w);
      if GiveOutstanding(w.k.s) {
        var t :| t in w.k.s.tasks && T(w.k.s, t).call == StartingTimer;
        assert t != SERVICE && T(u.k.s, t).call == StartingTimer && t in u.k.s.tasks;
      }
    }
  }

  lemma WakeKeepsWorld(w: World)
    requires WorldOk(w) && Can(w, Wake)
    ensures WorldOk(Happens(w, Wake))
  {
    hide Inv, ListOk, Leave, Placed, Resumed, T;
    NextKeeps(w.k, TakeReturn(WAKE));
    SelfFacts(w.k);
    assert InWake(w.k.s, SERVICE);
    LeaveQuiet(w.k.s, SERVICE);
    var u := LeaveFrame(w.k.s, SERVICE);
  }

  lemma PassKeepsWorld(w: World)
    requires WorldOk(w) && Can(w, Pass) && InWindow(Happens(w, Pass).v, Now(w))
    ensures WorldOk(Happens(w, Pass))
  {
    hide Inv, ListOk, Spans, FireHead, TaskCode, T, Lead;
    ServiceFacts(w);
    if HeadDue(w.v, Now(w)) { FireKeepsList(w.v, Now(w)); }
  }

  // ---- the application's steps -----------------------------------------------------------

  /** Entering or leaving a start is invisible to the kernel. */
  lemma EnterKeepsInv(k: Kernel, call: Call)
    requires Inv(k) && Resumed(k) && Self(k) != IDLE && !InKernel(T(k.s, Self(k)).call) && !InKernel(call)
    ensures Inv(k.(s := Enter(k.s, Self(k), call)))
  {
    SelfFacts(k);
    MutexesOfInv(k);
    hide Inv, Linked, AllPlaced, MutexesOk, Placed, T, R, W;
    var self, c := Self(k), T(k.s, Self(k)).(call := call, answers := 0);
    FieldsKeep(k.s, self, c);
    var u := SetTFrame(k.s, self, c);
    QuietKeepsMutexes(k, k.(s := u));
  }

  /** The soonest of the timers left is no sooner than the soonest of all. */
  lemma LaterHead(v: Service, u: Service, now: nat)
    requires ListOk(v, now) && u.active != [] && u.active[0] in v.active
    requires Tm(u, u.active[0]) == Tm(v, u.active[0])
    ensures v.active != [] && Lead(u, u.active[0], now) >= Lead(v, v.active[0], now)
  {
    var x := u.active[0];
    var i :| 0 <= i < |v.active| && v.active[i] == x;
    if i > 0 { assert Sooner(v, v.active[0], v.active[i], now); }
  }

  /**
   * The list changed and the rest of the world did not: the service is still covered if the head did not get
   * sooner.
   */
  lemma CoveredAfterList(w: World, u: World)
    requires WontOversleep(w) && u == w.(v := u.v)
    requires u.v.active != [] ==> w.v.active != [] && HeadLead(u) >= HeadLead(w)
    ensures WontOversleep(u)
  {
    hide Lead, DueIn, T;
    if w.pc.Sleeping? && w.v.active != [] && InTime(w) && u.v.active != [] && InWake(w.k.s, SERVICE) {
      var r: nat :| DueIn(w.k.s, SERVICE, r) && r < HALF && r <= HeadLead(w) + w.pc.slip;
      assert DueIn(u.k.s, SERVICE, r) && r <= HeadLead(u) + u.pc.slip;
    }
  }

  lemma ServiceUnmoved(w: World, u: World)
    requires ServiceOk(w) && u == w.(v := u.v)
    ensures ServiceOk(u)
  {}

  lemma StopKeepsWorld(w: World, id: Id)
    requires WorldOk(w) && Can(w, StopTimer(id))
    ensures WorldOk(Happens(w, StopTimer(id)))
  {
    var u := Happens(w, StopTimer(id));
    StopHead(w.v, id);
    hide ServiceOk, WontOversleep, ListOk, Stop, Tm;
    StopKeepsList(w.v, id, Now(w));
    ServiceUnmoved(w, u);
    if u.v.active != [] { LaterHead(w.v, u.v, Now(w)); }
    CoveredAfterList(w, u);
  }

  lemma StopHead(v: Service, id: Id)
    ensures var u := Stop(v, id);
      u.active != [] ==>
        && u.active[0] in v.active
        && ((id in v.active ==> NoDup(v.active)) && (Tm(v, id).active ==> id in v.active) ==>
              Tm(u, u.active[0]) == Tm(v, u.active[0]))
  {
    var u := Stop(v, id);
    if u.active != [] {
      assert u.active[0] in u.active;
      if NoDup(v.active) { WithoutNoDup(v.active, id); }
    }
  }

  lemma SetPeriodKeepsWorld(w: World, id: Id, period: nat)
    requires WorldOk(w) && Can(w, SetTimerPeriod(id, period))
    ensures WorldOk(Happens(w, SetTimerPeriod(id, period)))
  {
    var u := Happens(w, SetTimerPeriod(id, period));
    assert u.v.active == w.v.active;
    hide ServiceOk, WontOversleep, ListOk, SetPeriod, Lead;
    SetPeriodKeepsList(w.v, id, period, Now(w));
    ServiceUnmoved(w, u);
    CoveredAfterList(w, u);
  }

  lemma StartKeepsWorld(w: World, id: Id)
    requires WorldOk(w) && Can(w, StartTimer(id)) && InWindow(Start(w.v, id, Now(w)), Now(w))
    ensures WorldOk(Happens(w, StartTimer(id)))
  {
    hide ServiceOk, ListOk, WontOversleep, Spans, Insert, Enter, TaskCode, Tm, T, Lead;
    var u, expiry := Happens(w, StartTimer(id)), (Now(w) + Tm(w.v, id).period) % U32;
    var v, q, i := InsertFrame(w.v, id, expiry);
    InsertKeepsList(w.v, id, expiry, Now(w));
    if v.active[0] == id {
      StartingKeepsService(w, u);
    } else {
      assert v.active[0] in v.active;
      ServiceUnmoved(w, u);
      LaterHead(w.v, v, Now(w));
      CoveredAfterList(w, u);
    }
  }

  lemma StartingKeepsService(w: World, u: World)
    requires ServiceOk(w) && AppCode(w) && u == World(w.k.(s := Enter(w.k.s, Self(w.k), StartingTimer)), u.v, w.pc)
    ensures ServiceOk(u) && WontOversleep(u) && Now(u) == Now(w)
  {
    SelfFacts(w.k);
    EnterKeepsInv(w.k, StartingTimer);
    hide Inv, Placed, T;
    var s := SetTFrame(w.k.s, Self(w.k), T(w.k.s, Self(w.k)).(call := StartingTimer, answers := 0));
    assert T(u.k.s, Self(w.k)).call == StartingTimer && Self(w.k) in u.k.s.tasks;
  }

  /** The give of a start wakes the service if it sleeps, and leaves a unit for it if it does not yet. */
  lemma GiveReaches(w: World) returns (g: Kernel)
    requires ServiceOk(w) && Can(w, GiveWake)
    ensures g == SemGive(w.k, WAKE).0 && Inv(g) && g.s.cur == w.k.s.cur && g.s.tick == w.k.s.tick
    ensures g.s.tasks.Keys == w.k.s.tasks.Keys
    ensures WAKE in g.sems && g.sems[WAKE].max == w.k.sems[WAKE].max
    ensures forall t :: t != SERVICE ==> T(g.s, t) == T(w.k.s, t)
    ensures T(g.s, SERVICE).call == T(w.k.s, SERVICE).call
    ensures Self(w.k) != SERVICE ==> g.sems[WAKE].count > 0 || Waking(g.s)
    ensures Self(w.k) == SERVICE ==> T(g.s, SERVICE) == T(w.k.s, SERVICE)
  {
    hide Inv, Linked, AllPlaced, MakeReady, Resumed, T, W;
    NextKeeps(w.k, GiveFromIsr(WAKE));
    g := SemGive(w.k, WAKE).0;
    MutexesOfInv(w.k);
    var q := W(w.k.s, SemWaiters(WAKE));
    WakeReturns(w.k.s, SemWaiters(WAKE));
    var u := WokenFrame(w.k.s, SemWaiters(WAKE));
    if q != [] {
      HeadFacts(w.k, SemWaiters(WAKE));
      assert InWake(w.k.s, q[0]) && q[0] == SERVICE;
    }
  }

  lemma GiveKeepsWorld(w: World)
    requires WorldOk(w) && Can(w, GiveWake)
    ensures WorldOk(Happens(w, GiveWake))
  {
    hide Inv, ListOk, Placed, SemGive, InTime, T, Lead, DueIn;
    SelfFacts(w.k);
    StarterIsNotIdle(w);
    var self, u := Self(w.k), Happens(w, GiveWake);
    var g := GiveReaches(w);
    assert Self(g) == self && Resumed(g) && T(g.s, self).call == StartingTimer;
    EnterKeepsInv(g, NoCall);
    var s := SetTFrame(g.s, self, T(g.s, self).(call := NoCall, answers := 0));
    assert self == SERVICE ==> w.pc == Calling;
  }

  lemma StarterIsNotIdle(w: World)
    requires ServiceOk(w) && Can(w, GiveWake)
    ensures Self(w.k) != IDLE
  {}

  // ---- every run -------------------------------------------------------------------------

  /** Every event keeps the invariant, as long as the timers fit in the clock's window. */
  lemma HappensKeeps(w: World, e: Event)
    requires WorldOk(w) && Can(w, e) && InWindow(w.v, Now(w)) && InWindow(Happens(w, e).v, Now(Happens(w, e)))
    ensures WorldOk(Happens(w, e))
  {
    hide WorldOk, InWindow, ServiceCode, AppCode, Next, Enabled, SemTake, SemTakeReturn, FireHead, Start, Stop,
         SetPeriod, GiveAndLeave, Resumed, T;
    match e
    case Kern(step) => KernKeepsWorld(w, step);
    case Compute => ComputeKeepsWorld(w);
    case Sleep => SleepKeepsWorld(w);
    case Wake => WakeKeepsWorld(w);
    case Pass => PassKeepsWorld(w);
    case CallbackEnds => CallbackKeepsWorld(w);
    case StartTimer(id) => StartNow(w, id); StartKeepsWorld(w, id);
    case GiveWake => GiveKeepsWorld(w);
    case StopTimer(id) => StopKeepsWorld(w, id);
    case SetTimerPeriod(id, period) => SetPeriodKeepsWorld(w, id, period);
  }

  lemma CallbackKeepsWorld(w: World)
    requires WorldOk(w) && Can(w, CallbackEnds)
    ensures WorldOk(Happens(w, CallbackEnds))
  {
    ServiceFacts(w);
    hide Inv, ListOk, T;
  }

  lemma StartNow(w: World, id: Id)
    requires Can(w, StartTimer(id))
    ensures Now(Happens(w, StartTimer(id))) == Now(w) && Happens(w, StartTimer(id)).v == Start(w.v, id, Now(w))
  {}

  predicate Possible(w: World, events: seq<Event>)
    decreases |events|
  {
    events != [] ==> Can(w, events[0]) && Possible(Happens(w, events[0]), events[1..])
  }

  function After(w: World, events: seq<Event>): World
    requires Possible(w, events)
    decreases |events|
  {
    if events == [] then w else After(Happens(w, events[0]), events[1..])
  }

  /** The service is never starved for so long that an expiry falls out of the signed range. */
  ghost predicate StaysInWindow(w: World, events: seq<Event>)
    requires Possible(w, events)
    decreases |events|
  {
    InWindow(w.v, Now(w)) && (events != [] ==> StaysInWindow(Happens(w, events[0]), events[1..]))
  }

  lemma {:induction false} RunKeepsWorld(w: World, events: seq<Event>)
    requires WorldOk(w) && Possible(w, events) && StaysInWindow(w, events)
    ensures WorldOk(After(w, events)) && InWindow(After(w, events).v, Now(After(w, events)))
    decreases |events|
  {
    hide WorldOk, InWindow, Can, Happens;
    if events != [] {
      var u := Happens(w, events[0]);
      assert StaysInWindow(u, events[1..]);
      InWindowNow(u, events[1..]);
      HappensKeeps(w, events[0]);
      RunKeepsWorld(u, events[1..]);
    }
  }

  lemma InWindowNow(w: World, events: seq<Event>)
    requires Possible(w, events) && StaysInWindow(w, events)
    ensures InWindow(w.v, Now(w))
  {}

  /** nimble_timer_service_start on a kernel where nobody has used the semaphore yet. */
  ghost predicate ServiceStarted(w: World) {
    && Inv(w.k) && SERVICE in w.k.s.tasks && (forall t :: t in w.k.s.tasks ==> T(w.k.s, t).call == NoCall)
    && WAKE in w.k.sems && w.k.sems[WAKE] == Semaphore(0, 1)
    && w.v.active == [] && (forall id :: id in w.v.timers ==> !Tm(w.v, id).active) && w.pc == Computing
  }

  lemma StartedOk(w: World)
    requires ServiceStarted(w)
    ensures WorldOk(w)
  {
    hide Inv;
  }

  /**
   * Oversleep bound: whenever the service task is blocked, a start that made a new soonest timer still owes its give,
   * or no timer runs, or the sleep ends at most `slip` ticks after the soonest timer, where `slip` is the number of
   * ticks between computing the wait and blocking. Starts, stops, restarts and resets of any timer keep it so.
   */
  lemma OversleepBound(w: World, events: seq<Event>)
    requires ServiceStarted(w) && Possible(w, events) && StaysInWindow(w, events)
    ensures var u := After(w, events);
      u.pc.Sleeping? && InWake(u.k.s, SERVICE) && T(u.k.s, SERVICE).state == Blocked ==>
        || GiveOutstanding(u.k.s) || u.v.active == []
        || exists r: nat :: DueIn(u.k.s, SERVICE, r) && r < HALF && r <= HeadLead(u) + u.pc.slip
  {
    hide ServiceStarted, Possible, StaysInWindow, InWindow, After, ListOk, Inv, GiveOutstanding, Lead, DueIn, T;
    StartedOk(w);
    RunKeepsWorld(w, events);
    var u := After(w, events);
    if u.pc.Sleeping? && InWake(u.k.s, SERVICE) && T(u.k.s, SERVICE).state == Blocked {
      SleepersNeedUnits(u);
    }
  }

  /** While the service sleeps there is no unit for it, and it waits for more than nothing. */
  lemma SleepersNeedUnits(w: World)
    requires ServiceOk(w) && w.pc.Sleeping? && InWake(w.k.s, SERVICE) && T(w.k.s, SERVICE).state == Blocked
    ensures w.k.sems[WAKE].count == 0 && w.pc.wait > 0
  {
    BlockedWaits(w.k, SERVICE);
    MutexesOfInv(w.k);
  }

  /** When it is a tick that ends the sleep, the soonest timer is at most `slip` ticks overdue. */
  lemma TimeoutIsNotLate(w: World, events: seq<Event>)
    requires ServiceStarted(w) && Possible(w, events) && StaysInWindow(w, events)
    requires var u := After(w, events);
      && u.pc.Sleeping? && InWake(u.k.s, SERVICE) && T(u.k.s, SERVICE).state == Blocked
      && T(Tick(u.k.s), SERVICE).state != Blocked && !GiveOutstanding(u.k.s) && u.v.active != []
    ensures var u := After(w, events); Lead(u.v, u.v.active[0], (Now(u) + 1) % U32) >= 0 - u.pc.slip
  {
    hide ServiceStarted, Possible, StaysInWindow, After, InWindow, ListOk, GiveOutstanding, WontOversleep, Inv, Lead,
         DueIn, T, Tick;
    OversleepBound(w, events);
    StartedOk(w);
    RunKeepsWorld(w, events);
    LastTick(After(w, events));
  }

  lemma LastTick(w: World)
    requires ServiceOk(w) && ListOk(w.v, Now(w)) && InWindow(w.v, Now(w)) && w.pc.Sleeping? && w.v.active != []
    requires InWake(w.k.s, SERVICE) && T(Tick(w.k.s), SERVICE).state != Blocked
    requires exists r: nat :: DueIn(w.k.s, SERVICE, r) && r < HALF && r <= HeadLead(w) + w.pc.slip
    ensures Lead(w.v, w.v.active[0], (Now(w) + 1) % U32) >= 0 - w.pc.slip
  {
    hide Inv, ListOk, Spans, Lead, DueIn, T, Tick;
    var r: nat :| DueIn(w.k.s, SERVICE, r) && r < HALF && r <= HeadLead(w) + w.pc.slip;
    DueRange(w.k.s, SERVICE, r);
    SleeperTicks(w.k, r);
    if r > 1 { DueMeansBlocked(Tick(w.k.s), SERVICE, r - 1); }
    TickKeepsList(w.v, Now(w));
    assert w.v.active[0] in w.v.active;
  }

  /** The list holds exactly the active timers, soonest first and in insertion order among equals, after every run. */
  lemma TimersStaySorted(w: World, events: seq<Event>)
    requires ServiceStarted(w) && Possible(w, events) && StaysInWindow(w, events)
    ensures ListOk(After(w, events).v, Now(After(w, events)))
  {
    hide ServiceStarted, Possible, StaysInWindow, InWindow, After, ListOk;
    StartedOk(w);
    RunKeepsWorld(w, events);
  }

  // ---- drift -----------------------------------------------------------------------------

  predicate Fires(w: World, e: Event, id: Id) {
    e == Pass && HeadDue(w.v, Now(w)) && w.v.active[0] == id
  }

  function FireCount(w: World, events: seq<Event>, id: Id): nat
    requires Possible(w, events)
    decreases |events|
  {
    if events == [] then 0
        else (if Fires(w, events[0], id) then 1 else 0) + FireCount(Happens(w, events[0]), events[1..], id)
  }

  predicate Touches(e: Event, id: Id) {
    (e.StartTimer? || e.StopTimer? || e.SetTimerPeriod?) && e.id == id
  }

  predicate LeftAlone(events: seq<Event>, id: Id) { forall e :: e in events ==> !Touches(e, id) }

  /** Each firing comes at its tick, or while the next expiry lies ahead by less than half the clock. */
  predicate OnTime(w: World, events: seq<Event>, id: Id)
    requires Possible(w, events)
    decreases |events|
  {
    events != [] ==>
      && (Fires(w, events[0], id) ==> OnBeat(Lead(w.v, id, Now(w)), Tm(w.v, id).period))
      && OnTime(Happens(w, events[0]), events[1..], id)
  }

  /** In every state of the run the expiry is `due`, to which each firing adds one period, modulo 2^32. */
  predicate NeverDrifts(w: World, events: seq<Event>, id: Id, due: nat)
    requires Possible(w, events)
    decreases |events|
  {
    Tm(w.v, id).expiry == due && (events != [] ==>
      var next := if Fires(w, events[0], id) then (due + Tm(w.v, id).period) % U32 else due;
      NeverDrifts(Happens(w, events[0]), events[1..], id, next))
  }

  lemma TimerSteps(w: World, e: Event, id: Id)
    requires Can(w, e) && !Touches(e, id) && Now(w) < U32
    requires Tm(w.v, id).periodic && Tm(w.v, id).period < U32 && Tm(w.v, id).expiry < U32
    ensures var t, u := Tm(w.v, id), Tm(Happens(w, e).v, id);
      && u.periodic && u.period == t.period && u.expiry < U32
      && (Fires(w, e, id) ==> (u.expiry == (t.expiry + t.period) % U32 <==> OnBeat(Lead(w.v, id, Now(w)), t.period)))
      && (!Fires(w, e, id) ==> u.expiry == t.expiry)
  {
    hide FireHead, Start, Stop, SetPeriod, HeadDue, Lead, Tm, Can, Happens;
    ServiceMoves(w, e);
    match e
    case StartTimer(x) => StartLeaves(w.v, x, id, Now(w));
    case StopTimer(x) => StopLeaves(w.v, x, id);
    case SetTimerPeriod(x, period) => PeriodLeaves(w.v, x, period, id);
    case Pass => if HeadDue(w.v, Now(w)) { PassReschedules(w.v, id, Now(w)); }
    case _ =>
  }

  /** What an event does to the timers. */
  lemma ServiceMoves(w: World, e: Event)
    requires Can(w, e)
    ensures Happens(w, e).v ==
      match e
      case Pass => if HeadDue(w.v, Now(w)) then FireHead(w.v, Now(w)) else w.v
      case StartTimer(id) => Start(w.v, id, Now(w))
      case StopTimer(id) => Stop(w.v, id)
      case SetTimerPeriod(id, period) => SetPeriod(w.v, id, period)
      case _ => w.v
  {
    hide Next, Enabled, TaskCode, Resumed, SemTake, SemTakeReturn, SemGive, Enter, Insert, FireHead, SignedDiff, T;
  }

  lemma StartLeaves(v: Service, x: Id, id: Id, now: nat)
    ensures id != x ==> Tm(Start(v, x, now), id) == Tm(v, id)
  {
    hide Insert, Tm;
    var u, q, i := InsertFrame(v, x, (now + Tm(v, x).period) % U32);
  }

  lemma StopLeaves(v: Service, x: Id, id: Id)
    ensures id != x ==> Tm(Stop(v, x), id) == Tm(v, id)
  {}

  lemma PeriodLeaves(v: Service, x: Id, period: nat, id: Id)
    ensures id != x ==> Tm(SetPeriod(v, x, period), id) == Tm(v, id)
  {}

  lemma PassReschedules(v: Service, id: Id, now: nat)
    requires HeadDue(v, now) && now < U32
    requires Tm(v, id).periodic && Tm(v, id).period < U32 && Tm(v, id).expiry < U32
    ensures var t, u := Tm(v, id), Tm(FireHead(v, now), id);
      if v.active[0] == id then
        && u.periodic && u.period == t.period && u.expiry < U32
        && (u.expiry == (t.expiry + t.period) % U32 <==> OnBeat(Lead(v, id, now), t.period))
      else u == t
  {
    hide Insert, NextExpiry, SignedDiff, Tm;
    var head := v.active[0];
    if Tm(v, head).periodic {
      var u, q, i := InsertFrame(v, head, NextExpiry(Tm(v, head), now));
      if head == id { Rescheduled(Tm(v, id), now); OnBeatExactly(Tm(v, id), now); }
    } else {
      OneShotLeaves(v, id, now);
    }
  }

  lemma OneShotLeaves(v: Service, id: Id, now: nat)
    requires v.active != [] && !Tm(v, v.active[0]).periodic && id != v.active[0]
    ensures Tm(FireHead(v, now), id) == Tm(v, id)
  {}

  /** The expiry `k` periods on. */
  function PeriodsOn(e: nat, p: nat, k: nat): nat { (e + k * p) % U32 }

  lemma AddPeriod(e: nat, p: nat, k: nat)
    ensures PeriodsOn((e + p) % U32, p, k) == PeriodsOn(e, p, k + 1) && (e < U32 ==> PeriodsOn(e, p, 0) == e)
  {
    assert (k + 1) * p == k * p + p;
    var q := (e + p) / U32;
    assert e + p == U32 * q + (e + p) % U32;
    ModShift((e + p) % U32 + k * p, q);
  }

  lemma NowInRange(w: World)
    requires ServiceOk(w)
    ensures Now(w) < U32
  {}

  /**
   * No drift, for any period: after k firings, each at its tick or at most a period late and short of half the clock,
   * the expiry is the first one plus k periods, modulo 2^32.
   */
  lemma {:induction false} NoDrift(w: World, events: seq<Event>, id: Id)
    requires WorldOk(w) && Possible(w, events) && StaysInWindow(w, events)
    requires LeftAlone(events, id) && OnTime(w, events, id)
    requires Tm(w.v, id).periodic && Tm(w.v, id).period < U32 && Tm(w.v, id).expiry < U32
    ensures Tm(After(w, events).v, id).expiry ==
        PeriodsOn(Tm(w.v, id).expiry, Tm(w.v, id).period, FireCount(w, events, id))
    decreases |events|
  {
    hide ServiceOk, ListOk, WontOversleep, InWindow, Can, Happens, Fires, Touches, Tm, Lead, OnBeat, PeriodsOn;
    var e, p := Tm(w.v, id).expiry, Tm(w.v, id).period;
    AddPeriod(e, p, 0);
    if events != [] {
      var u := Happens(w, events[0]);
      assert StaysInWindow(u, events[1..]) && OnTime(u, events[1..], id);
      InWindowNow(u, events[1..]);
      HappensKeeps(w, events[0]);
      NowInRange(w);
      TimerSteps(w, events[0], id);
      NoDrift(u, events[1..], id);
      if Fires(w, events[0], id) { AddPeriod(e, p, FireCount(u, events[1..], id)); }
    }
  }

  /** Over any run in which nobody touches the timer: it never drifts if and only if each firing is on time. */
  lemma {:induction false} NoDriftExactly(w: World, events: seq<Event>, id: Id)
    requires WorldOk(w) && Possible(w, events) && StaysInWindow(w, events) && LeftAlone(events, id)
    requires Tm(w.v, id).periodic && Tm(w.v, id).period < U32 && Tm(w.v, id).expiry < U32
    ensures NeverDrifts(w, events, id, Tm(w.v, id).expiry) <==> OnTime(w, events, id)
    decreases |events|
  {
    hide ServiceOk, ListOk, WontOversleep, InWindow, Can, Happens, Fires, Touches, Tm, Lead, OnBeat;
    if events != [] {
      var u := Happens(w, events[0]);
      assert StaysInWindow(u, events[1..]);
      InWindowNow(u, events[1..]);
      HappensKeeps(w, events[0]);
      NowInRange(w);
      TimerSteps(w, events[0], id);
      NoDriftExactly(u, events[1..], id);
      StartsDue(u, events[1..], id);
    }
  }

  lemma StartsDue(w: World, events: seq<Event>, id: Id)
    requires Possible(w, events)
    ensures forall due :: NeverDrifts(w, events, id, due) ==> due == Tm(w.v, id).expiry
  {}
}

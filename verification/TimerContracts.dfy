/**
 * What every event of the timer service leaves behind, told from its arguments and the state before, and when a timer
 * that has been started is due.
 */
module TimerContracts {
  import opened Base
  import opened Scheduler
  import opened Kernel
  import opened Invariants
  import opened Membership
  import opened Sequences
  import opened Effects
  import opened Signals
  import opened Timers
  import opened TimerService
  import opened Contracts

  // ---- one event -------------------------------------------------------------------------

  /** `t` is on its way from a start that made a new soonest timer to the give it owes. */
  ghost predicate OwesGive(s: Sched, u: Sched, t: Tid) {
    && u.tasks.Keys == s.tasks.Keys && T(u, t) == T(s, t).(call := StartingTimer, answers := 0)
    && (forall x :: x != t ==> T(u, x) == T(s, x))
    && (forall n :: R(u, n) == R(s, n)) && (forall w :: W(u, w) == W(s, w))
    && u.bits == s.bits && u.delayed == s.delayed && u.tick == s.tick && u.cur == s.cur && u.arrivals == s.arrivals
  }

  /** The wait is for ever if no timer runs, none if one is due, and else the time to the soonest of all. */
  ghost predicate IsWaitFor(v: Service, now: nat, wait: nat) {
    && (wait == WAIT_FOREVER <==> forall id :: id in v.timers ==> !Tm(v, id).active)
    && (wait == NO_WAIT <==> exists id :: id in v.active && Lead(v, id, now) <= 0)
    && (wait != WAIT_FOREVER && wait != NO_WAIT ==>
          && (forall id :: id in v.active ==> wait <= Lead(v, id, now))
          && (exists id :: id in v.active && wait == Lead(v, id, now)))
  }

  /** What the service's take returns: it only waits if there is no unit and it has time. */
  function SleepOut(w: World): Out
    requires WAKE in w.k.sems
  {
    if w.k.sems[WAKE].count > 0 then Returns(OK) else if w.pc.Sleeping? && w.pc.wait > 0 then Waits
    else Returns(Timeout)
  }

  /** A start that makes a new soonest timer owes the service a give; no other start does. */
  ghost predicate StartContract(w: World, id: Id, u: World) {
    && Starts(w.v, u.v, id, Tm(w.v, id).period, Now(w)) && u.pc == w.pc && u.v.active != []
    && if u.v.active[0] == id then u.k == w.k.(s := u.k.s) && OwesGive(w.k.s, u.k.s, Self(w.k)) else u.k == w.k
  }

  /** The give that was owed, and the return from the start. */
  ghost predicate GiveWakeContract(w: World, u: World)
    requires WAKE in w.k.sems
  {
    && u.v == w.v && u.pc == w.pc
    && exists g :: GiveContract(w.k, WAKE, g, Returns(OK)) && u.k == g.(s := u.k.s)
                   && CallOver(g.s, u.k.s, Self(w.k))
  }

  ghost predicate EventContract(w: World, e: Event, u: World)
    requires Can(w, e)
  {
    match e
    case Kern(step) =>
      // a tick between computing the wait and blocking is one that the service may be late by
      && u.k == Next(w.k, step).0 && u.v == w.v
      && u.pc == (if step == SysTick && w.pc.Sleeping? && T(w.k.s, SERVICE).call == NoCall
                  then Sleeping(w.pc.wait, w.pc.slip + 1) else w.pc)
    case Compute => u == w.(pc := u.pc) && u.pc.Sleeping? && u.pc.slip == 0 && IsWaitFor(w.v, Now(w), u.pc.wait)
    case Sleep =>
      && u.v == w.v && u.pc == (if SleepOut(w) == Waits then w.pc else Draining)
      && Enabled(w.k, Take(WAKE, w.pc.wait)) && SemaphoreContract(w.k, Take(WAKE, w.pc.wait), u.k, SleepOut(w))
    case Wake => u.v == w.v && u.pc == Draining && u.k == w.k.(s := u.k.s) && CallOver(w.k.s, u.k.s, SERVICE)
    case Pass =>
      if SomeDue(w.v, Now(w)) then u == w.(v := u.v, pc := Calling) && Fired(w.v, u.v, Now(w))
      else u == w.(pc := Computing)
    case CallbackEnds => u == w.(pc := Draining)
    case StartTimer(id) => StartContract(w, id, u)
    case GiveWake => GiveWakeContract(w, u)
    case StopTimer(id) => u == w.(v := u.v) && Stops(w.v, u.v, id)
    case SetTimerPeriod(id, period) => u == w.(v := u.v) && ChangesPeriod(w.v, u.v, id, period)
  }

  ghost predicate SomeDue(v: Service, now: nat) { exists id :: id in v.active && Lead(v, id, now) <= 0 }

  /** In a list in order some timer is due exactly if the head is. */
  lemma HeadTells(v: Service, now: nat)
    requires ListOk(v, now)
    ensures HeadDue(v, now) <==> SomeDue(v, now)
  {
    if HeadDue(v, now) { assert v.active[0] in v.active; } else { NoneDue(v, now); }
  }

  /** The clock and the timers hold 32-bit words. */
  ghost predicate WordsOk(w: World) { Now(w) < U32 && WordsIn(w.v) }

  ghost predicate WordsIn(v: Service) {
    forall id :: id in v.timers ==> Tm(v, id).period < U32 && Tm(v, id).expiry < U32
  }

  lemma KernMeets(w: World, step: Step)
    requires Can(w, Kern(step))
    ensures EventContract(w, Kern(step), Happens(w, Kern(step)))
  {
    hide Next, Enabled, T;
  }

  lemma ComputeMeets(w: World)
    requires WorldOk(w) && Can(w, Compute)
    ensures EventContract(w, Compute, Happens(w, Compute))
  {
    hide ServiceOk, ListOk, WontOversleep, ServiceCode, WaitTicks, Lead, Tm;
    WaitIsLeast(w.v, Now(w));
  }

  lemma SleepMeets(w: World)
    requires WorldOk(w) && Can(w, Sleep)
    ensures EventContract(w, Sleep, Happens(w, Sleep))
  {
    SleepIsTake(w);
    hide WorldOk, Inv, SemaphoreContract, SemTake, Can, Enabled, TaskCode, Next;
    SemaphoreMeets(w.k, Take(WAKE, w.pc.wait));
  }

  lemma SleepIsTake(w: World)
    requires WorldOk(w) && Can(w, Sleep)
    ensures Inv(w.k) && Enabled(w.k, Take(WAKE, w.pc.wait)) && WAKE in w.k.sems && w.pc.Sleeping?
    ensures Next(w.k, Take(WAKE, w.pc.wait)) == SemTake(w.k, WAKE, w.pc.wait)
    ensures SemTake(w.k, WAKE, w.pc.wait).1 == SleepOut(w)
    ensures var u := Happens(w, Sleep);
      u == w.(k := u.k, pc := if SleepOut(w) == Waits then w.pc else Draining)
          && u.k == SemTake(w.k, WAKE, w.pc.wait).0
  {
    hide ListOk, WontOversleep, BlockOn;
  }

  lemma WakeMeets(w: World)
    requires WorldOk(w) && Can(w, Wake)
    ensures EventContract(w, Wake, Happens(w, Wake))
  {
    hide ListOk, WontOversleep, Inv, Leave, CallOver, Resumed;
    WakeResumes(w);
    Finishing(w.k);
  }

  lemma WakeResumes(w: World)
    requires Can(w, Wake)
    ensures Resumed(w.k)
  {}

  lemma PassMeets(w: World)
    requires WorldOk(w) && Can(w, Pass) && WordsOk(w)
    ensures EventContract(w, Pass, Happens(w, Pass))
  {
    ListIsQueued(w);
    hide ServiceOk, ListOk, WontOversleep, ServiceCode, Queued, FireHead, Fired, Lead, Tm;
    HeadTells(w.v, Now(w));
    if HeadDue(w.v, Now(w)) { FireSets(w.v, Now(w)); }
  }

  lemma ListIsQueued(w: World)
    requires WorldOk(w) && WordsOk(w)
    ensures Queued(w.v, Now(w))
    ensures HeadDue(w.v, Now(w)) ==> Tm(w.v, w.v.active[0]).expiry < U32
  {
    if w.v.active != [] { assert w.v.active[0] in w.v.active; }
  }

  lemma StartMeets(w: World, id: Id)
    requires WorldOk(w) && Can(w, StartTimer(id))
    ensures StartContract(w, id, Happens(w, StartTimer(id)))
  {
    Starter(w, id);
    StartHappens(w, id);
    hide WorldOk, Can, Happens, Start, Enter, Starts, NoDup, OwesGive, Tm;
    StartSets(w.v, id, Now(w));
  }

  lemma StartHappens(w: World, id: Id)
    requires Can(w, StartTimer(id))
    ensures var v := Start(w.v, id, Now(w));
      Happens(w, StartTimer(id)) == w.(v := v, k := if v.active[0] == id
                                                    then w.k.(s := Enter(w.k.s, Self(w.k), StartingTimer)) else w.k)
  {}

  lemma Starter(w: World, id: Id)
    requires WorldOk(w) && Can(w, StartTimer(id))
    ensures NoDup(w.v.active) && id in w.v.timers && Start(w.v, id, Now(w)).active != []
    ensures OwesGive(w.k.s, Enter(w.k.s, Self(w.k), StartingTimer), Self(w.k))
  {
    SelfFacts(w.k);
    hide Inv, WontOversleep, Placed, T, R, W, SetT;
    var u := SetTFrame(w.k.s, Self(w.k), T(w.k.s, Self(w.k)).(call := StartingTimer, answers := 0));
  }

  lemma OwedGiveMeets(w: World)
    requires WorldOk(w) && Can(w, GiveWake)
    ensures WAKE in w.k.sems && GiveWakeContract(w, Happens(w, GiveWake))
  {
    GiverStays(w);
    GiveHappens(w);
    hide WorldOk, Can, Happens, GiveContract, CallOver, SemGive, Enter;
  }

  lemma GiveHappens(w: World)
    requires Can(w, GiveWake)
    ensures WAKE in w.k.sems
    ensures var g := SemGive(w.k, WAKE).0; Happens(w, GiveWake) == w.(k := g.(s := Enter(g.s, Self(w.k), NoCall)))
  {
    hide SemGive, Enter;
  }

  lemma GiverStays(w: World)
    requires WorldOk(w) && Can(w, GiveWake)
    ensures var g := SemGive(w.k, WAKE).0;
      GiveContract(w.k, WAKE, g, Returns(OK)) && CallOver(g.s, Enter(g.s, Self(w.k), NoCall), Self(w.k))
  {
    hide ListOk, WontOversleep, Inv, SemGive, GiveContract, Placed, T, R, W, SetT;
    GiveMeets(w.k, WAKE);
    GiveSaysOk(w.k, WAKE);
    SelfFacts(w.k);
    var g := GiveReaches(w);
    var u := SetTFrame(g.s, Self(w.k), T(g.s, Self(w.k)).(call := NoCall, answers := 0));
  }

  lemma GiveSaysOk(k: Kernel, id: nat)
    requires id in k.sems
    ensures SemGive(k, id).1 == Returns(OK)
  {}

  /** Every event, in every state the service can reach, does what its contract says. */
  lemma EveryEventMeets(w: World, e: Event)
    requires WorldOk(w) && Can(w, e) && WordsOk(w)
    ensures EventContract(w, e, Happens(w, e))
  {
    hide WorldOk, WordsOk, EventContract, Can, Happens;
    match e
    case Kern(step) => KernMeets(w, step);
    case Compute => ComputeMeets(w);
    case Sleep => SleepMeets(w);
    case Wake => WakeMeets(w);
    case Pass => PassMeets(w);
    case CallbackEnds => CallbackMeets(w);
    case StartTimer(id) => StartMeets(w, id); ContractOfStart(w, id, Happens(w, e));
    case GiveWake => OwedGiveMeets(w); ContractOfGive(w, Happens(w, e));
    case StopTimer(id) => StopMeets(w, id);
    case SetTimerPeriod(id, period) => PeriodMeets(w, id, period);
  }

  lemma ContractOfStart(w: World, id: Id, u: World)
    requires Can(w, StartTimer(id))
    ensures EventContract(w, StartTimer(id), u) <==> StartContract(w, id, u)
  {}

  lemma ContractOfGive(w: World, u: World)
    requires Can(w, GiveWake)
    ensures WAKE in w.k.sems && (EventContract(w, GiveWake, u) <==> GiveWakeContract(w, u))
  {}

  lemma CallbackMeets(w: World)
    requires Can(w, CallbackEnds)
    ensures EventContract(w, CallbackEnds, Happens(w, CallbackEnds))
  {}

  lemma StopMeets(w: World, id: Id)
    requires Can(w, StopTimer(id))
    ensures EventContract(w, StopTimer(id), Happens(w, StopTimer(id)))
  {
    hide AppCode, Stop, Stops;
    StopSets(w.v, id);
  }

  lemma PeriodMeets(w: World, id: Id, period: nat)
    requires Can(w, SetTimerPeriod(id, period))
    ensures EventContract(w, SetTimerPeriod(id, period), Happens(w, SetTimerPeriod(id, period)))
  {
    hide AppCode, SetPeriod, ChangesPeriod;
    PeriodSets(w.v, id, period);
  }

  /** Clock readings and periods stay 32-bit words. */
  lemma WordsKept(w: World, e: Event)
    requires WorldOk(w) && WordsOk(w) && Can(w, e)
    ensures WordsOk(Happens(w, e))
  {
    ClockMoves(w, e);
    ServiceMoves(w, e);
    if e == Pass { ListIsQueued(w); }
    hide WorldOk, WordsIn, Happens, Can, Start, Stop, SetPeriod, FireHead, Queued, HeadDue, NoDup, Tm;
    match e
    case StartTimer(id) => Starter(w, id); StartWords(w.v, id, Now(w));
    case StopTimer(id) => KnownTimer(w, e); StopWords(w.v, id);
    case SetTimerPeriod(id, period) => KnownTimer(w, e); PeriodWords(w.v, id, period);
    case Pass => if HeadDue(w.v, Now(w)) { FireWords(w.v, Now(w)); }
    case _ =>
  }

  lemma KnownTimer(w: World, e: Event)
    requires Can(w, e)
    ensures e.StopTimer? ==> e.id in w.v.timers
    ensures e.SetTimerPeriod? ==> e.id in w.v.timers && e.period < U32
  {}

  lemma StartWords(v: Service, id: Id, now: nat)
    requires WordsIn(v) && id in v.timers && NoDup(v.active)
    ensures WordsIn(Start(v, id, now))
  {
    hide Start, InPlace, Tm, NoDup;
    StartSets(v, id, now);
  }

  lemma StopWords(v: Service, id: Id)
    requires WordsIn(v) && id in v.timers
    ensures WordsIn(Stop(v, id))
  {
    hide Stop, Without, Tm;
    StopSets(v, id);
  }

  lemma PeriodWords(v: Service, id: Id, period: nat)
    requires WordsIn(v) && id in v.timers && period < U32
    ensures WordsIn(SetPeriod(v, id, period))
  {
    hide SetPeriod, Tm;
    PeriodSets(v, id, period);
  }

  lemma FireWords(v: Service, now: nat)
    requires WordsIn(v) && Queued(v, now) && HeadDue(v, now) && Tm(v, v.active[0]).expiry < U32
    ensures WordsIn(FireHead(v, now))
  {
    hide FireHead, InPlace, Tm, Lead, OnBeat, Queued;
    FireSets(v, now);
  }

  lemma {:induction false} WordsThroughout(w: World, events: seq<Event>)
    requires WorldOk(w) && WordsOk(w) && Possible(w, events) && StaysInWindow(w, events)
    ensures WordsOk(After(w, events))
    decreases |events|
  {
    hide WorldOk, WordsOk, InWindow, Can, Happens;
    if events != [] {
      var u := Happens(w, events[0]);
      assert StaysInWindow(u, events[1..]);
      InWindowNow(u, events[1..]);
      HappensKeeps(w, events[0]);
      WordsKept(w, events[0]);
      WordsThroughout(u, events[1..]);
    }
  }

  /** So does every event of every run from the start of the service. */
  lemma AlwaysMeets(w: World, events: seq<Event>, e: Event)
    requires ServiceStarted(w) && WordsOk(w) && Possible(w, events) && StaysInWindow(w, events)
    requires Can(After(w, events), e)
    ensures EventContract(After(w, events), e, Happens(After(w, events), e))
  {
    hide ServiceStarted, WorldOk, WordsOk, Possible, StaysInWindow, After, Can, Happens, EventContract, InWindow;
    StartedOk(w);
    RunKeepsWorld(w, events);
    WordsThroughout(w, events);
    EveryEventMeets(After(w, events), e);
  }

  // ---- nothing is left open --------------------------------------------------------------

  lemma OneWait(v: Service, now: nat, a: nat, b: nat)
    requires IsWaitFor(v, now, a) && IsWaitFor(v, now, b)
    ensures a == b
  {
    hide Tm, Lead;
  }

  lemma OwesOneWay(s: Sched, u: Sched, v: Sched, t: Tid)
    requires OwesGive(s, u, t) && OwesGive(s, v, t)
    ensures SameSched(u, v)
  {
    hide T, R, W;
  }

  lemma StartOneWay(w: World, id: Id, a: World, b: World)
    requires id in w.v.timers && StartContract(w, id, a) && StartContract(w, id, b)
    ensures a.v == b.v && a.pc == b.pc && SameKernel(a.k, b.k)
  {
    hide Starts, OwesGive, SameKernel, SameSched, Tm;
    StartsOneWay(w.v, a.v, b.v, id, Tm(w.v, id).period, Now(w));
    NothingDiffers(w.k);
    if a.v.active[0] == id {
      OwesOneWay(w.k.s, a.k.s, b.k.s, Self(w.k));
      SameScheduler(w.k, a.k, b.k);
    }
  }

  lemma OwedGiveOneWay(w: World, a: World, b: World)
    requires WAKE in w.k.sems && GiveWakeContract(w, a) && GiveWakeContract(w, b)
    ensures a.v == b.v && a.pc == b.pc && SameKernel(a.k, b.k)
  {
    hide GiveContract, CallOver, SameKernel;
    var g :| GiveContract(w.k, WAKE, g, Returns(OK)) && a.k == g.(s := a.k.s) && CallOver(g.s, a.k.s, Self(w.k));
    var h :| GiveContract(w.k, WAKE, h, Returns(OK)) && b.k == h.(s := b.k.s) && CallOver(h.s, b.k.s, Self(w.k));
    GiveOneWay(w.k, WAKE, g, h, Returns(OK), Returns(OK));
    OverFromSame(g, h, a.k, b.k, Self(w.k));
  }

  lemma OverFromSame(g: Kernel, h: Kernel, u: Kernel, v: Kernel, t: Tid)
    requires SameKernel(g, h) && u == g.(s := u.s) && v == h.(s := v.s)
    requires CallOver(g.s, u.s, t) && CallOver(h.s, v.s, t)
    ensures SameKernel(u, v)
  {
    hide SameQueue, T, R, W;
  }

  /** Any two outcomes that keep the contract of an event are the same. */
  lemma NoEventIsOpen(w: World, e: Event, a: World, b: World)
    requires WorldOk(w) && Can(w, e) && EventContract(w, e, a) && EventContract(w, e, b)
    ensures a.v == b.v && a.pc == b.pc && SameKernel(a.k, b.k)
  {
    NothingDiffers(a.k);
    if w.v.active != [] { HeadIsKnown(w); }
    match e
    case StartTimer(id) => StartIsOpen(w, id, a, b);
    case GiveWake => OwedGiveOneWay(w, a, b);
    case Kern(step) => hide SameKernel;
    case Compute => hide SameKernel, IsWaitFor; OneWait(w.v, Now(w), a.pc.wait, b.pc.wait);
    case Sleep =>
      hide SameKernel, SemaphoreContract, WorldOk;
      SemaphoreOneWay(w.k, Take(WAKE, w.pc.wait), a.k, b.k, SleepOut(w), SleepOut(w));
    case Wake =>
      hide SameKernel, SameSched, CallOver;
      OverOneWay(w.k.s, a.k.s, b.k.s, SERVICE);
      SameScheduler(w.k, a.k, b.k);
    case Pass =>
      hide SameKernel, Fired, WorldOk;
      if SomeDue(w.v, Now(w)) { FiredOneWay(w.v, a.v, b.v, Now(w)); }
    case CallbackEnds =>
    case StopTimer(id) => hide SameKernel, Stops; StopsOneWay(w.v, a.v, b.v, id);
    case SetTimerPeriod(id, period) => hide SameKernel, ChangesPeriod; PeriodOneWay(w.v, a.v, b.v, id, period);
  }

  lemma StartIsOpen(w: World, id: Id, a: World, b: World)
    requires Can(w, StartTimer(id))
    requires EventContract(w, StartTimer(id), a) && EventContract(w, StartTimer(id), b)
    ensures a.v == b.v && a.pc == b.pc && SameKernel(a.k, b.k)
  {
    ContractOfStart(w, id, a);
    ContractOfStart(w, id, b);
    hide EventContract, StartContract, SameKernel;
    StartOneWay(w, id, a, b);
  }

  lemma HeadIsKnown(w: World)
    requires WorldOk(w) && w.v.active != []
    ensures w.v.active[0] in w.v.timers
  {
    assert w.v.active[0] in w.v.active;
  }

  // ---- when a started timer is due -------------------------------------------------------

  function TickCount(events: seq<Event>): nat {
    if events == [] then 0 else (if events[0] == Kern(SysTick) then 1 else 0) + TickCount(events[1..])
  }

  /** An event that neither touches nor fires a timer leaves it as it is. */
  lemma EventLeaves(w: World, e: Event, id: Id)
    requires Can(w, e) && !Touches(e, id) && !Fires(w, e, id)
    ensures Tm(Happens(w, e).v, id) == Tm(w.v, id)
  {
    hide FireHead, Start, Stop, SetPeriod, HeadDue, Lead, Tm, Can, Happens;
    ServiceMoves(w, e);
    match e
    case StartTimer(x) => StartLeaves(w.v, x, id, Now(w));
    case StopTimer(x) => StopLeaves(w.v, x, id);
    case SetTimerPeriod(x, period) => PeriodLeaves(w.v, x, period, id);
    case Pass => if HeadDue(w.v, Now(w)) { OtherFires(w.v, id, Now(w)); }
    case _ =>
  }

  lemma OtherFires(v: Service, id: Id, now: nat)
    requires HeadDue(v, now) && v.active[0] != id
    ensures Tm(FireHead(v, now), id) == Tm(v, id)
  {
    hide Insert, NextExpiry, SignedDiff, Tm;
    if Tm(v, v.active[0]).periodic { var u, q, i := InsertFrame(v, v.active[0], NextExpiry(Tm(v, v.active[0]), now)); }
    else { OneShotLeaves(v, id, now); }
  }

  /** Only a tick moves the clock, and by one. */
  lemma ClockMoves(w: World, e: Event)
    requires WorldOk(w) && Can(w, e)
    ensures Now(Happens(w, e)) == if e == Kern(SysTick) then (Now(w) + 1) % U32 else Now(w)
  {
    hide WorldOk, Can, Happens;
    match e
    case Kern(step) => KernClock(w, step);
    case Sleep => SleepClock(w);
    case Wake => WakeClock(w);
    case GiveWake => GiveClock(w);
    case StartTimer(id) => StartNow(w, id);
    case _ => OnlyService(w, e);
  }

  lemma OnlyService(w: World, e: Event)
    requires Can(w, e) && (e.Compute? || e.Pass? || e.CallbackEnds? || e.StopTimer? || e.SetTimerPeriod?)
    ensures Happens(w, e).k == w.k
  {}

  lemma GiveClock(w: World)
    requires WorldOk(w) && Can(w, GiveWake)
    ensures Now(Happens(w, GiveWake)) == Now(w)
  {
    GiveHappens(w);
    hide ListOk, WontOversleep, Can, Happens, SemGive;
    var g := GiveReaches(w);
  }

  lemma KernClock(w: World, step: Step)
    requires WorldOk(w) && Can(w, Kern(step))
    ensures Now(Happens(w, Kern(step))) == if step == SysTick then (Now(w) + 1) % U32 else Now(w)
  {
    KernFacts(w, step);
  }

  lemma SleepClock(w: World)
    requires WorldOk(w) && Can(w, Sleep)
    ensures Now(Happens(w, Sleep)) == Now(w)
  {
    SleepIsTake(w);
    hide WorldOk, Can, Happens, Inv, Enabled, Next;
    ClockStandsStill(w.k, Take(WAKE, w.pc.wait));
  }

  lemma WakeClock(w: World)
    requires WorldOk(w) && Can(w, Wake)
    ensures Now(Happens(w, Wake)) == Now(w)
  {
    WakeMeets(w);
  }

  /** A timer that is not due cannot be fired. */
  lemma NotDueNotFired(w: World, e: Event, id: Id)
    requires Lead(w.v, id, Now(w)) > 0
    ensures !Fires(w, e, id)
  {}

  /** While nobody touches it, a timer `d` ticks ahead comes one tick closer with each tick, and is not fired. */
  lemma {:induction false} ComesCloser(w: World, events: seq<Event>, id: Id, d: nat)
    requires WorldOk(w) && Possible(w, events) && StaysInWindow(w, events) && LeftAlone(events, id)
    requires Lead(w.v, id, Now(w)) == d && TickCount(events) < d
    ensures var u := After(w, events);
      && Lead(u.v, id, Now(u)) == d - TickCount(events) && FireCount(w, events, id) == 0
      && Tm(u.v, id) == Tm(w.v, id)
    decreases |events|
  {
    hide WorldOk, InWindow, Can, Happens, Fires, Touches, Tm, Lead;
    if events != [] {
      var u := Happens(w, events[0]);
      assert StaysInWindow(u, events[1..]);
      InWindowNow(u, events[1..]);
      HappensKeeps(w, events[0]);
      NotDueNotFired(w, events[0], id);
      EventLeaves(w, events[0], id);
      OneCloser(w, events[0], id, d);
      ComesCloser(u, events[1..], id, if events[0] == Kern(SysTick) then d - 1 else d);
    }
  }

  lemma OneCloser(w: World, e: Event, id: Id, d: nat)
    requires WorldOk(w) && Can(w, e) && Tm(Happens(w, e).v, id) == Tm(w.v, id) && Lead(w.v, id, Now(w)) == d
    ensures var u := Happens(w, e); Lead(u.v, id, Now(u)) == if e == Kern(SysTick) then d - 1 else d
  {
    hide WorldOk, Can, Happens, Tm, SignedDiff;
    ClockMoves(w, e);
    LeadTicks(Tm(w.v, id).expiry, Now(w));
  }

  /**
   * A started timer that nobody touches is fired by none of its first ticks, and is due exactly at the one its period
   * asks for, for every period below half the clock.
   */
  lemma StartedIsDueOnTime(w: World, id: Id, events: seq<Event>)
    requires WorldOk(w) && WordsOk(w) && Can(w, StartTimer(id)) && Tm(w.v, id).period < HALF
    requires var u := Happens(w, StartTimer(id));
      InWindow(w.v, Now(w)) && Possible(u, events) && StaysInWindow(u, events) && LeftAlone(events, id)
    ensures var p, u := Tm(w.v, id).period, Happens(w, StartTimer(id));
      && (p == 0 ==> Lead(u.v, id, Now(u)) == 0)
      && (TickCount(events) < p ==>
            var v := After(u, events);
            && Tm(v.v, id).active && FireCount(u, events, id) == 0
            && Lead(v.v, id, Now(v)) == p - TickCount(events)
            && (TickCount(events) == p - 1 ==> Lead(v.v, id, (Now(v) + 1) % U32) == 0))
  {
    hide WorldOk, WordsOk, InWindow, Can, Happens, Possible, After, StaysInWindow, LeftAlone, FireCount, Start, Tm,
         Lead;
    var p, u := Tm(w.v, id).period, Happens(w, StartTimer(id));
    StartAhead(w, id);
    InWindowNow(u, events);
    HappensKeeps(w, StartTimer(id));
    if TickCount(events) < p {
      ComesCloser(u, events, id, p);
      if TickCount(events) == p - 1 { DueNext(After(u, events), id); }
    }
  }

  lemma StartAhead(w: World, id: Id)
    requires WorldOk(w) && WordsOk(w) && Can(w, StartTimer(id)) && Tm(w.v, id).period < HALF
    ensures var u := Happens(w, StartTimer(id)); Lead(u.v, id, Now(u)) == Tm(w.v, id).period && Tm(u.v, id).active
  {
    Starter(w, id);
    StartNow(w, id);
    hide WorldOk, Can, Happens, Start, Starts, NoDup, OwesGive, Tm, Lead;
    StartSets(w.v, id, Now(w));
    StartRuns(w.v, Start(w.v, id, Now(w)), id, Tm(w.v, id).period, Now(w));
  }

  lemma DueNext(w: World, id: Id)
    requires Lead(w.v, id, Now(w)) == 1
    ensures Lead(w.v, id, (Now(w) + 1) % U32) == 0
  {
    hide SignedDiff, Tm;
    LeadTicks(Tm(w.v, id).expiry, Now(w));
  }

  lemma StartRuns(v: Service, u: Service, id: Id, period: nat, now: nat)
    requires Starts(v, u, id, period, now)
    ensures Tm(u, id).active
  {}
}

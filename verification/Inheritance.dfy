/**
 * Priority inheritance and the safety of dispatch, over every run of tasks that use mutexes the
 * way the application does: no nesting, and a holder neither blocks nor is suspended.
 */
module Inheritance {
  import opened Base
  import opened Sequences
  import opened Scheduler
  import opened Membership
  import opened Evolution
  import opened Kernel
  import opened Invariants
  import opened Effects

  predicate HoldsNone(k: Kernel, t: Tid) { forall m | m in k.mutexes :: !Owns(k, t, m) }

  /** How much of the discipline is asked for: each asks for what the one before does, and more. */
  datatype Rules =
    | TimedLocks     // a holder neither takes a second mutex, nor waits, nor is suspended
    | PatientLocks   // and locks that wait do so for ever
    | Strict         // and nobody suspends itself or the idle task

  predicate Disciplined(k: Kernel, step: Step, rules: Rules)
    requires Enabled(k, step)
  {
    && (Next(k, step).1 == Waits ==> HoldsNone(k, Self(k)))
    && (step.Lock? && k.mutexes[step.m].owner == None ==> HoldsNone(k, Self(k)))
    && (step.Suspend? ==> HoldsNone(k, step.t))
    && (step.Lock? && Next(k, step).1 == Waits && rules != TimedLocks ==> step.timeout == WAIT_FOREVER)
    && (step.Suspend? && rules == Strict ==> step.t != IDLE && step.t != Self(k))
  }

  predicate DisciplinedRun(k: Kernel, steps: seq<Step>, rules: Rules)
    requires Legal(k, steps)
    decreases |steps|
  {
    steps == [] || (Disciplined(k, steps[0], rules) && DisciplinedRun(Next(k, steps[0]).0, steps[1..], rules))
  }

  // ---- the inductive invariant -----------------------------------------------------------

  /** Owners can run, and hold one mutex each. */
  ghost predicate OwnersUp(k: Kernel) {
    && (forall t, m :: Owns(k, t, m) ==> T(k.s, t).state == Ready || T(k.s, t).state == Running)
    && (forall t, m, n :: Owns(k, t, m) && Owns(k, t, n) ==> m == n)
  }

  /** Who owns nothing runs at its base priority; an owner at no less than its base and its waiters. */
  ghost predicate Inherits(k: Kernel) {
    && (forall t :: t in k.s.tasks && HoldsNone(k, t) ==> T(k.s, t).prio == T(k.s, t).base)
    && (forall t, m :: Owns(k, t, m) ==> T(k.s, t).prio >= T(k.s, t).base)
    && (forall t, m, w {:trigger Owns(k, t, m), w in W(k.s, MutexWaiters(m))} ::
          Owns(k, t, m) && w in W(k.s, MutexWaiters(m)) ==> T(k.s, t).prio >= T(k.s, w).prio)
  }

  /** A READY task is queued at its priority, or below it if it is an owner boosted since. */
  ghost predicate LevelsOk(k: Kernel) {
    forall t :: t in k.s.tasks && T(k.s, t).link.OnReady? ==>
      && T(k.s, t).link.level <= T(k.s, t).prio
      && (HoldsNone(k, t) ==> T(k.s, t).link.level == T(k.s, t).prio)
  }

  /** `n` is the base priority of the owner of `m` or of one of its waiters. */
  ghost predicate Backs(k: Kernel, m: nat, n: nat) {
    m in k.mutexes && k.mutexes[m].owner.Some? &&
    (T(k.s, k.mutexes[m].owner.value).base == n || exists w :: w in W(k.s, MutexWaiters(m)) && T(k.s, w).base == n)
  }

  /** Waiters have no timeout; an owner's priority, and the level it is queued at, have a reason. */
  ghost predicate Exact(k: Kernel) {
    && (forall m, w {:trigger w in W(k.s, MutexWaiters(m))} :: w in W(k.s, MutexWaiters(m)) ==> !Timed(T(k.s, w).call))
    && (forall t, m :: Owns(k, t, m) ==> Backs(k, m, T(k.s, t).prio))
    && (forall t, m :: Owns(k, t, m) && T(k.s, t).link.OnReady? ==> Backs(k, m, T(k.s, t).link.level))
  }

  predicate Above(s: Sched, t: Tid, n: nat) {
    T(s, t).state == Running || (T(s, t).link.OnReady? && T(s, t).link.level > n)
  }

  /** Why a set bit over an empty list is harmless. */
  ghost predicate Excused(k: Kernel, n: nat) {
    || (k.s.cur.Some? && T(k.s, k.s.cur.value).state == Running && T(k.s, k.s.cur.value).prio == n)
    || (exists m, o :: Owns(k, o, m) && Backs(k, m, n) && Above(k.s, o, n))
  }

  ghost predicate StaleExcused(k: Kernel) {
    forall n :: n in k.s.bits && R(k.s, n) == [] ==> Excused(k, n)
  }

  predicate IdleUp(s: Sched) { IDLE in s.tasks && T(s, IDLE).state != Suspended }

  /** The invariant of disciplined runs, by how much of the discipline they keep. */
  ghost predicate Inh(k: Kernel, rules: Rules) {
    && OwnersUp(k) && Inherits(k) && WaitsSorted(k.s) && LevelsOk(k)
    && (rules != TimedLocks ==> Exact(k))
    && (rules == Strict ==> StaleExcused(k) && IdleUp(k.s))
  }

  // ---- ordinary steps --------------------------------------------------------------------

  /** `u` comes from `k` by an ordinary step; a task that blocks in it holds nothing. */
  ghost predicate Ordinarily(k: Kernel, u: Kernel, actor: Option<Tid>, r: Status, waits: bool) {
    && Linked(k.s) && AllPlaced(k.s) && Linked(u.s) && AllPlaced(u.s) && MutexesOk(k) && u.mutexes == k.mutexes
    && Evolves(k.s, u.s, actor, r, waits)
    && (forall m, t {:trigger t in W(u.s, MutexWaiters(m))} ::
          t in W(u.s, MutexWaiters(m)) ==> t in W(k.s, MutexWaiters(m)))
    && (actor.Some? && waits ==> HoldsNone(k, actor.value))
  }

  /** What an ordinary step leaves alone, in the terms of this module. */
  ghost predicate Steady(k: Kernel, u: Kernel) {
    && u.mutexes == k.mutexes && k.s.tasks.Keys <= u.s.tasks.Keys
    && (forall t :: t in k.s.tasks ==> T(u.s, t).prio == T(k.s, t).prio && T(u.s, t).base == T(k.s, t).base)
    && (forall t, m :: Owns(k, t, m) ==> t in k.s.tasks)
    && (forall t, m :: Owns(k, t, m) ==> T(u.s, t).state == T(k.s, t).state && T(u.s, t).link == T(k.s, t).link)
    && (forall t :: t in u.s.tasks && t !in k.s.tasks ==> T(u.s, t).prio == T(u.s, t).base)
    && (forall t :: t in u.s.tasks && T(u.s, t).link.OnReady? ==>
          T(u.s, t).link.level == T(u.s, t).prio || (t in k.s.tasks && T(u.s, t).link == T(k.s, t).link))
    && (forall t :: t in u.s.tasks && T(u.s, t).state == Suspended ==> t in k.s.tasks && T(k.s, t).state == Suspended)
    && (forall m, t {:trigger t in W(u.s, MutexWaiters(m))} ::
          t in W(u.s, MutexWaiters(m)) ==> t in W(k.s, MutexWaiters(m)) && t in k.s.tasks)
  }

  lemma OrdinarilySteady(k: Kernel, u: Kernel, actor: Option<Tid>, r: Status, waits: bool)
    requires Ordinarily(k, u, actor, r, waits) && OwnersUp(k)
    ensures Steady(k, u)
  {
    hide Linked, AllPlaced, MutexesOk, ListsEvolve, PatientStay, SortedKept, T, R, W;
    WaitersExist(k.s);
    OwnersExist(k);
    OffIfRunning(k.s);
    OffIfRunning(u.s);
  }

  lemma WaitersExist(s: Sched)
    requires Linked(s)
    ensures forall w, t {:trigger t in W(s, w)} :: t in W(s, w) ==> t in s.tasks
  {}

  lemma OwnersExist(k: Kernel)
    requires MutexesOk(k)
    ensures forall t, m :: Owns(k, t, m) ==> t in k.s.tasks
  {}

  lemma SteadyKeeps(k: Kernel, u: Kernel)
    requires Steady(k, u) && OwnersUp(k) && Inherits(k) && LevelsOk(k)
    ensures OwnersUp(u) && Inherits(u) && LevelsOk(u) && (IdleUp(k.s) ==> IdleUp(u.s))
  {
    hide T, W;
    assert forall t, m :: Owns(u, t, m) <==> Owns(k, t, m);
    assert forall t :: HoldsNone(u, t) <==> HoldsNone(k, t);
    hide Owns, HoldsNone;
  }

  /** The waiters of every mutex are the same tasks as before. */
  ghost predicate SameWaiters(k: Kernel, u: Kernel) {
    forall m, t {:trigger t in W(k.s, MutexWaiters(m))}{:trigger t in W(u.s, MutexWaiters(m))} ::
      t in W(k.s, MutexWaiters(m)) <==> t in W(u.s, MutexWaiters(m))
  }

  lemma PatientWaitersStay(k: Kernel, u: Kernel, actor: Option<Tid>, r: Status, waits: bool)
    requires Ordinarily(k, u, actor, r, waits) && Exact(k)
    ensures SameWaiters(k, u)
    ensures forall m, w {:trigger w in W(u.s, MutexWaiters(m))} ::
      w in W(u.s, MutexWaiters(m)) ==> T(u.s, w) == T(k.s, w)
  {
    hide Linked, AllPlaced, MutexesOk, ActorEvolves, ListsEvolve, PatientStay, SortedKept, T, W;
    forall m, w | w in W(k.s, MutexWaiters(m)) ensures w in W(u.s, MutexWaiters(m)) {
      MutexWaiterStays(k.s, u.s, m, w);
    }
    forall m, w | w in W(u.s, MutexWaiters(m)) ensures T(u.s, w) == T(k.s, w) {
      MutexWaiterStays(k.s, u.s, m, w);
    }
  }

  lemma MutexWaiterStays(s: Sched, u: Sched, m: nat, w: Tid)
    requires Linked(s) && AllPlaced(s) && Linked(u) && PatientStay(s, u) && s.tasks.Keys <= u.tasks.Keys
    requires w in W(s, MutexWaiters(m)) && !Timed(T(s, w).call)
    ensures w in W(u, MutexWaiters(m)) && T(u, w) == T(s, w)
  {
    hide AllPlaced, T, W;
    WaiterIsBlocked(s, MutexWaiters(m));
    assert T(s, w).call.Locking?;
  }

  lemma OrdinaryKeepsExact(k: Kernel, u: Kernel)
    requires Steady(k, u) && SameWaiters(k, u) && Exact(k)
    requires forall m, w {:trigger w in W(u.s, MutexWaiters(m))} ::
      w in W(u.s, MutexWaiters(m)) ==> T(u.s, w) == T(k.s, w)
    ensures Exact(u)
    ensures forall m, n :: Backs(k, m, n) ==> Backs(u, m, n)
  {
    hide T, W;
    assert forall t, m :: Owns(u, t, m) <==> Owns(k, t, m);
    forall m, n | Backs(k, m, n) ensures Backs(u, m, n) {
      assert Owns(k, k.mutexes[m].owner.value, m);
    }
    hide Backs;
  }

  lemma OrdinaryKeepsStale(k: Kernel, u: Kernel, actor: Option<Tid>, r: Status, waits: bool)
    requires Ordinarily(k, u, actor, r, waits) && Steady(k, u) && StaleExcused(k)
    requires forall m, n :: Backs(k, m, n) ==> Backs(u, m, n)
    requires k.s.cur.Some? ==> k.s.cur.value in k.s.tasks
    ensures StaleExcused(u)
  {
    hide Linked, AllPlaced, MutexesOk, SortedKept, PatientStay, Backs, T, R, W;
    forall n | n in u.s.bits && R(u.s, n) == [] ensures Excused(u, n) {
      assert R(k.s, n) <= R(u.s, n);
      assert n in k.s.bits && R(k.s, n) == [];
      assert Excused(k, n);
      if m, o :| Owns(k, o, m) && Backs(k, m, n) && Above(k.s, o, n) {
        assert Owns(u, o, m) && Backs(u, m, n) && Above(u.s, o, n);
      }
    }
  }

  lemma OrdinaryKeepsInh(k: Kernel, u: Kernel, actor: Option<Tid>, r: Status, waits: bool, rules: Rules)
    requires Ordinarily(k, u, actor, r, waits) && Inh(k, rules)
    ensures Inh(u, rules)
  {
    hide Linked, AllPlaced, MutexesOk, OwnersUp, Inherits, LevelsOk, Exact, StaleExcused, WaitsSorted, Steady,
         SameWaiters, TasksEvolve, ActorEvolves, ListsEvolve, PatientStay, Backs, HoldsNone, T, W;
    OrdinarilySteady(k, u, actor, r, waits);
    SteadyKeeps(k, u);
    if rules != TimedLocks {
      PatientWaitersStay(k, u, actor, r, waits);
      OrdinaryKeepsExact(k, u);
    }
    if rules == Strict {
      CurrentExists(k.s);
      OrdinaryKeepsStale(k, u, actor, r, waits);
    }
  }

  // ---- the switch ------------------------------------------------------------------------

  /** A waiter owns nothing, so it runs at its base priority. */
  lemma WaiterAtBase(k: Kernel, m: nat, w: Tid)
    requires Linked(k.s) && AllPlaced(k.s) && OwnersUp(k) && Inherits(k) && w in W(k.s, MutexWaiters(m))
    ensures w in k.s.tasks && T(k.s, w).state == Blocked && HoldsNone(k, w) && T(k.s, w).prio == T(k.s, w).base
  {
    hide Linked, AllPlaced, T, W;
    WaiterIsBlocked(k.s, MutexWaiters(m));
    assert forall n :: !Owns(k, w, n);
  }

  /** Whatever backs a level is at or below the owner's priority. */
  lemma BackedIsReached(k: Kernel, m: nat, n: nat, o: Tid)
    requires Linked(k.s) && AllPlaced(k.s) && OwnersUp(k) && Inherits(k) && Owns(k, o, m) && Backs(k, m, n)
    ensures T(k.s, o).prio >= n
  {
    hide Linked, AllPlaced, OwnersUp, T, W;
    if T(k.s, o).base != n {
      var w :| w in W(k.s, MutexWaiters(m)) && T(k.s, w).base == n;
      WaiterAtBase(k, m, w);
    }
  }

  /** In the requeued state no bit is above the level chosen. */
  lemma TopLevelFacts(s: Sched, v: Sched)
    requires Linked(s) && AllPlaced(s) && v == Requeued(s) && v.bits != {}
    ensures TopLevel(v) in v.bits && forall n :: n in v.bits ==> n <= TopLevel(v)
    ensures forall t :: t in s.tasks && T(v, t).link.OnReady? ==> T(v, t).link.level <= TopLevel(v)
  {
    hide Linked, AllPlaced, Requeued, TopLevel, T, R, W;
    RequeuedLinked(s);
    BitsOf(v);
    CurrentExists(s);
    var _ := RequeuedFrame(s);
    var n :| n in v.bits;
    TopOfBits(v, n);
  }

  /** As long as the idle task can run, some bit is set. */
  lemma IdleKeepsABit(s: Sched)
    requires Linked(s) && AllPlaced(s) && IdleOk(s) && IdleUp(s)
    ensures Requeued(s).bits != {}
  {
    hide Linked, AllPlaced, Requeued, IdleOk, T, R, W;
    RequeuedLinked(s);
    CurrentExists(s);
    IdleQueued(s);
    IdleExists(s);
    var v := RequeuedFrame(s);
    BitsOf(v);
    assert T(v, IDLE).link.OnReady?;
  }

  lemma IdleExists(s: Sched)
    requires IdleOk(s)
    ensures IDLE in s.tasks
  {}

  lemma IdleQueued(s: Sched)
    requires AllPlaced(s) && IdleOk(s) && IdleUp(s)
    ensures T(s, IDLE).link.OnReady? || IsRunning(s, IDLE)
  {
    assert Placed(s, IDLE);
  }

  /** Dispatch is safe: stale bits and all, the list at the highest set bit is not empty. */
  lemma DispatchSafe(k: Kernel)
    requires Inv(k) && Inh(k, Strict)
    ensures CanDispatch(k.s)
  {
    hide Inv, Linked, AllPlaced, OwnersUp, Inherits, WaitsSorted, LevelsOk, Exact, Backs, Requeued, TopLevel, T, R, W;
    var s, v := k.s, Requeued(k.s);
    MutexesOfInv(k);
    CurrentExists(s);
    IdleKeepsABit(s);
    TopLevelFacts(s, v);
    v := RequeuedFrame(s);
    var h := TopLevel(v);
    assert s.cur.Some? && IsRunning(s, s.cur.value) ==> s.cur.value in R(v, T(s, s.cur.value).prio);
    assert s.cur.Some? && IsRunning(s, s.cur.value) ==> T(s, s.cur.value).prio <= h;
    if R(v, h) == [] {
      assert h in s.bits && R(s, h) == [];
      assert Excused(k, h);
      if m, o :| Owns(k, o, m) && Backs(k, m, h) && Above(s, o, h) {
        BackedIsReached(k, m, h, o);
        OwnerIsCurrentIfRunning(k, o, m);
        assert false;
      }
    }
  }

  lemma OwnerIsCurrentIfRunning(k: Kernel, o: Tid, m: nat)
    requires Inv(k) && Owns(k, o, m)
    ensures o in k.s.tasks && (T(k.s, o).state == Running ==> IsRunning(k.s, o))
  {
    assert Placed(k.s, o);
  }

  /** A switch changes no priority; the running task is queued at its own. */
  lemma SwitchSteady(k: Kernel, u: Kernel)
    requires Inv(k) && CanDispatch(k.s) && u == k.(s := SelectNext(k.s))
    requires OwnersUp(k) && Inherits(k) && LevelsOk(k) && WaitsSorted(k.s)
    ensures OwnersUp(u) && Inherits(u) && LevelsOk(u) && WaitsSorted(u.s) && (IdleUp(k.s) ==> IdleUp(u.s))
  {
    hide Inv, CanDispatch, SelectNext, Chosen, TopLevel, Requeued, SortedBy, T, R, W;
    var t, v, s := SwitchView(k);
    assert forall x, m :: Owns(u, x, m) <==> Owns(k, x, m);
    assert forall x :: HoldsNone(u, x) <==> HoldsNone(k, x);
    hide HoldsNone, Owns;
    SortedWhenSame(k.s, s);
  }

  lemma SwitchKeepsExact(k: Kernel, u: Kernel)
    requires Inv(k) && CanDispatch(k.s) && u == k.(s := SelectNext(k.s)) && Exact(k)
    ensures Exact(u)
    ensures forall m, n :: Backs(k, m, n) <==> Backs(u, m, n)
  {
    hide Inv, CanDispatch, SelectNext, Chosen, TopLevel, Requeued, T, R, W;
    var t, v, s := SwitchView(k);
    assert forall m, n :: Backs(k, m, n) <==> Backs(u, m, n);
    assert forall x, m :: Owns(u, x, m) <==> Owns(k, x, m);
    hide Backs, Owns;
  }

  /** Which lists a switch touches, and what it leaves over an empty one. */
  lemma SwitchStale(k: Kernel, n: nat) returns (t: Tid, v: Sched)
    requires Inv(k) && CanDispatch(k.s)
    requires n in SelectNext(k.s).bits && R(SelectNext(k.s), n) == []
    ensures t == Chosen(k.s) && v == Requeued(k.s)
    ensures n == TopLevel(v) ==> T(k.s, t).prio != n && T(k.s, t).link == OnReady(n)
    ensures n != TopLevel(v) ==> n in k.s.bits && R(k.s, n) == [] && R(v, n) == []
    ensures forall x :: IsRunning(k.s, x) ==> x in R(v, T(k.s, x).prio) && R(v, T(k.s, x).prio) != []
  {
    hide Inv, Linked, AllPlaced, CanDispatch, SelectNext, Chosen, TopLevel, Requeued, T, R, W;
    MutexesOfInv(k);
    CurrentExists(k.s);
    t := Chosen(k.s);
    var u;
    v, u := SelectNextFrame(k.s);
    var _ := RequeuedFrame(k.s);
  }

  lemma SwitchKeepsStale(k: Kernel, u: Kernel)
    requires Inv(k) && Inh(k, Strict) && CanDispatch(k.s) && u == k.(s := SelectNext(k.s))
    requires forall m, n :: Backs(k, m, n) <==> Backs(u, m, n)
    ensures StaleExcused(u)
  {
    hide Inv, Linked, AllPlaced, OwnersUp, Inherits, WaitsSorted, LevelsOk, Exact, CanDispatch, SelectNext, Chosen,
         TopLevel, Requeued, Backs, Excused, T, R, W;
    forall n | n in u.s.bits && R(u.s, n) == [] ensures Excused(u, n) {
      SwitchExcuses(k, u, n);
    }
  }

  lemma SwitchExcuses(k: Kernel, u: Kernel, n: nat)
    requires Inv(k) && Inh(k, Strict) && CanDispatch(k.s) && u == k.(s := SelectNext(k.s))
    requires forall m, n :: Backs(k, m, n) <==> Backs(u, m, n)
    requires n in u.s.bits && R(u.s, n) == []
    ensures Excused(u, n)
  {
    hide Inv, Linked, AllPlaced, OwnersUp, Inherits, WaitsSorted, CanDispatch, SelectNext, Chosen, TopLevel, Requeued,
         Backs, T, R, W;
    MutexesOfInv(k);
    var t, v := SwitchStale(k, n);
    var _, _, s := SwitchView(k);
    if n == TopLevel(v) {
      assert !HoldsNone(k, t);
      var m :| Owns(k, t, m);
      assert Backs(u, m, n) && Owns(u, t, m) && Above(s, t, n);
    } else {
      assert Excused(k, n);
      var m, o :| Owns(k, o, m) && Backs(k, m, n) && Above(k.s, o, n);
      BackedIsReached(k, m, n, o);
      OwnerIsCurrentIfRunning(k, o, m);
      assert Backs(u, m, n) && Owns(u, o, m) && Above(s, o, n);
    }
  }

  lemma SwitchKeepsInh(k: Kernel, u: Kernel, rules: Rules)
    requires Inv(k) && Inh(k, rules) && CanDispatch(k.s) && u == k.(s := SelectNext(k.s))
    ensures Inh(u, rules)
  {
    hide Inv, OwnersUp, Inherits, WaitsSorted, LevelsOk, Exact, StaleExcused, CanDispatch, SelectNext, Backs;
    SwitchSteady(k, u);
    if rules != TimedLocks { SwitchKeepsExact(k, u); }
    if rules == Strict { SwitchKeepsStale(k, u); }
  }

  // ---- the mutex steps -------------------------------------------------------------------

  /** Taking a free mutex or one more level of one's own, and giving back an inner level. */
  lemma TakingKeepsInh(k: Kernel, u: Kernel, self: Tid, m: nat, rules: Rules)
    requires Inv(k) && Inh(k, rules) && u == k.(mutexes := u.mutexes) && IsRunning(k.s, self)
    requires m in k.mutexes && u.mutexes.Keys == k.mutexes.Keys && u.mutexes[m].owner == Some(self)
    requires forall n :: n in k.mutexes && n != m ==> u.mutexes[n] == k.mutexes[n]
    requires k.mutexes[m].owner == Some(self) || (k.mutexes[m].owner == None && HoldsNone(k, self))
    ensures Inh(u, rules)
  {
    hide Inv, Linked, AllPlaced, SortedBy, T, R, W;
    MutexesOfInv(k);
    FreeHasNoWaiters(k, m);
    OffIfRunning(k.s);
    CurrentExists(k.s);
    assert forall t, n :: Owns(u, t, n) <==> Owns(k, t, n) || (t == self && n == m);
    assert forall t :: t != self ==> (HoldsNone(u, t) <==> HoldsNone(k, t));
    assert forall n, l :: Backs(k, n, l) ==> Backs(u, n, l);
    TakingKeepsOwners(k, u, self, m);
    if rules != TimedLocks { TakingKeepsExact(k, u, self, m); }
    if rules == Strict {
      forall n | n in u.s.bits && R(u.s, n) == [] ensures Excused(u, n) { ExcusedStays(k, u, n); }
    }
  }

  lemma FreeHasNoWaiters(k: Kernel, m: nat)
    requires MutexesOk(k) && m in k.mutexes
    ensures k.mutexes[m].owner == None ==> W(k.s, MutexWaiters(m)) == []
  {}

  lemma TakingKeepsOwners(k: Kernel, u: Kernel, self: Tid, m: nat)
    requires OwnersUp(k) && Inherits(k) && LevelsOk(k) && u.s == k.s && IsRunning(k.s, self) && T(k.s, self).link == Off
    requires self in k.s.tasks && (HoldsNone(k, self) || Owns(k, self, m))
    requires HoldsNone(k, self) ==> W(k.s, MutexWaiters(m)) == []
    requires forall t, n :: Owns(u, t, n) <==> Owns(k, t, n) || (t == self && n == m)
    requires forall t :: t != self ==> (HoldsNone(u, t) <==> HoldsNone(k, t))
    ensures OwnersUp(u) && Inherits(u) && LevelsOk(u)
  {
    hide T, W;
    assert forall t, n :: HoldsNone(k, t) ==> !Owns(k, t, n);
    assert !HoldsNone(u, self) by { assert Owns(u, self, m); }
    hide Owns, HoldsNone;
  }

  lemma TakingKeepsExact(k: Kernel, u: Kernel, self: Tid, m: nat)
    requires Exact(k) && Inherits(k) && u.s == k.s && T(k.s, self).link == Off
    requires self in k.s.tasks && (HoldsNone(k, self) || Owns(k, self, m)) && m in u.mutexes
    requires u.mutexes[m].owner == Some(self)
    requires forall t, n :: Owns(u, t, n) <==> Owns(k, t, n) || (t == self && n == m)
    requires forall n, l :: Backs(k, n, l) ==> Backs(u, n, l)
    ensures Exact(u)
  {
    assert HoldsNone(k, self) ==> Backs(u, m, T(k.s, self).prio) by { hide W; }
    hide T, R, W, Backs, HoldsNone;
  }

  lemma ExcusedStays(k: Kernel, u: Kernel, n: nat)
    requires Excused(k, n) && u.s == k.s
    requires forall t, m :: Owns(k, t, m) ==> Owns(u, t, m)
    requires forall m, l :: Backs(k, m, l) ==> Backs(u, m, l)
    ensures Excused(u, n)
  {
    hide T, Backs, Owns;
    if m, o :| Owns(k, o, m) && Backs(k, m, n) && Above(k.s, o, n) {
      assert Owns(u, o, m) && Backs(u, m, n) && Above(u.s, o, n);
    }
  }

  /** What the block half of a lock does to each task and list. */
  lemma LockWaitView(k: Kernel, m: nat, timeout: nat) returns (o: Tid, u: Sched)
    requires Inv(k) && TaskCode(k) && m in k.mutexes && MutexLock(k, m, timeout).1 == Waits && OwnersUp(k)
    ensures Owns(k, o, m) && o in k.s.tasks && T(k.s, o).state == Ready && o != Self(k)
    ensures MutexLock(k, m, timeout).0 == k.(s := u)
    ensures u.tasks.Keys == k.s.tasks.Keys && u.cur == k.s.cur == Some(Self(k)) && Self(k) in k.s.tasks
    ensures T(u, o) == T(k.s, o).(prio := Max(T(k.s, Self(k)).prio, T(k.s, o).prio))
    ensures T(u, Self(k)) ==
        T(k.s, Self(k)).(state := Blocked, link := T(u, Self(k)).link, event := Some(MutexWaiters(m)),
              wake := T(u, Self(k)).wake, call := Locking(m, timeout), answers := 0, arrived := k.s.arrivals)
    ensures T(k.s, Self(k)).state == Running && T(u, Self(k)).link != OnReady(0) && !T(u, Self(k)).link.OnReady?
    ensures forall x :: x != o && x != Self(k) ==> T(u, x) == T(k.s, x)
    ensures forall n :: R(u, n) == R(k.s, n)
    ensures forall w, t {:trigger t in W(u, w)}{:trigger t in W(k.s, w)} ::
      t in W(u, w) <==> t in W(k.s, w) || (t == Self(k) && w == MutexWaiters(m))
    ensures u.bits == if R(k.s, T(k.s, Self(k)).prio) == [] then k.s.bits - {T(k.s, Self(k)).prio} else k.s.bits
    ensures WaitsSorted(k.s) ==> WaitsSorted(u)
  {
    hide Inv, Linked, AllPlaced, Placed, MutexLock, BlockOn, Boost, TaskCode, WaitsSorted, InsertWaiter, T, R, W;
    var self := Self(k);
    SelfFacts(k);
    MutexesOfInv(k);
    var b;
    o, b, u := LockWaits(k, m, timeout);
    assert Owns(k, o, m);
    OwnerIsReady(k, o, m);
    u := BlockOnFrame(b, self, Locking(m, timeout));
    BlockSorted(b, self, Locking(m, timeout));
    NotWaiting(k.s, o);
    SortedWhenSame(k.s, b);
    MembersAfterInsert(b, self);
  }

  lemma MembersAfterInsert(s: Sched, t: Tid)
    requires Linked(s) && t in s.tasks && T(s, t).event == None
    ensures forall w, x :: x in InsertWaiter(s, W(s, w), t) <==> x in W(s, w) || x == t
  {
    NotWaiting(s, t);
    hide Linked, InsertWaiter, NoDup, T, W;
    forall w { InsertUnique(s, W(s, w), t); }
  }

  lemma OwnerIsReady(k: Kernel, o: Tid, m: nat)
    requires Inv(k) && OwnersUp(k) && Owns(k, o, m) && k.s.cur.Some? && o != k.s.cur.value
    ensures o in k.s.tasks && T(k.s, o).state == Ready && T(k.s, o).event == None
  {
    assert Placed(k.s, o);
  }

  lemma WaitersBlocked(s: Sched)
    requires Linked(s) && AllPlaced(s)
    ensures forall m, t {:trigger t in W(s, MutexWaiters(m))} ::
      t in W(s, MutexWaiters(m)) ==> t in s.tasks && T(s, t).state == Blocked
  {
    hide Linked, AllPlaced, T, W;
    forall m { WaiterIsBlocked(s, MutexWaiters(m)); }
  }

  lemma LockWaitKeepsInh(k: Kernel, m: nat, timeout: nat, rules: Rules)
    requires Inv(k) && Inh(k, rules) && TaskCode(k) && m in k.mutexes && MutexLock(k, m, timeout).1 == Waits
    requires HoldsNone(k, Self(k)) && (rules != TimedLocks ==> timeout == WAIT_FOREVER)
    ensures Inh(MutexLock(k, m, timeout).0, rules)
  {
    hide Inv, Linked, AllPlaced, MutexLock, TaskCode, OwnersUp, Inherits, LevelsOk, Exact, StaleExcused, WaitsSorted,
         Backs, T, R, W;
    MutexesOfInv(k);
    WaitersBlocked(k.s);
    OffIfRunning(k.s);
    var o, s := LockWaitView(k, m, timeout);
    var u := k.(s := s);
    LockWaitKeepsOwners(k, u, m, o);
    if rules != TimedLocks {
      LockWaitKeepsBacks(k, u, m, o);
      LockWaitKeepsExact(k, u, m, o);
    }
    if rules == Strict { LockWaitKeepsStale(k, u, m, o); }
  }

  /** The block half of a lock as the invariant sees it: `self` joins the waiters of `m`, owned by `o`. */
  ghost predicate LockWaited(k: Kernel, u: Kernel, m: nat, o: Tid) {
    var self := Self(k);
    && u.mutexes == k.mutexes && Owns(k, o, m) && o != self && HoldsNone(k, self) && o in k.s.tasks && self in k.s.tasks
    && T(k.s, o).state == Ready && T(k.s, self).state == Running && k.s.cur == Some(self) == u.s.cur
    && u.s.tasks.Keys == k.s.tasks.Keys
    && T(u.s, o) == T(k.s, o).(prio := Max(T(k.s, self).prio, T(k.s, o).prio))
    && T(u.s, self).prio == T(k.s, self).prio && T(u.s, self).base == T(k.s, self).base && T(u.s, self).state == Blocked
    && !T(u.s, self).link.OnReady? && T(u.s, self).call.Locking?
    && (forall x :: x != o && x != self ==> T(u.s, x) == T(k.s, x))
    && (forall n, t {:trigger t in W(u.s, MutexWaiters(n))}{:trigger t in W(k.s, MutexWaiters(n))} ::
          t in W(u.s, MutexWaiters(n)) <==> t in W(k.s, MutexWaiters(n)) || (t == self && n == m))
    && (forall n, t {:trigger t in W(k.s, MutexWaiters(n))} ::
          t in W(k.s, MutexWaiters(n)) ==> T(k.s, t).state == Blocked)
    && (forall t :: t in k.s.tasks && T(k.s, t).state == Running ==> t == self)
    && (forall n :: R(u.s, n) == R(k.s, n))
    && (u.s.bits == if R(k.s, T(k.s, self).prio) == [] then k.s.bits - {T(k.s, self).prio} else k.s.bits)
  }

  lemma LockWaitKeepsOwners(k: Kernel, u: Kernel, m: nat, o: Tid)
    requires LockWaited(k, u, m, o) && OwnersUp(k) && Inherits(k) && LevelsOk(k)
    ensures OwnersUp(u) && Inherits(u) && LevelsOk(u)
  {
    hide T, R, W;
    assert forall t, n :: Owns(u, t, n) <==> Owns(k, t, n);
    assert forall t :: HoldsNone(u, t) <==> HoldsNone(k, t);
    assert forall t, n :: HoldsNone(k, t) ==> !Owns(k, t, n);
    hide Owns, HoldsNone;
  }

  lemma LockWaitKeepsBacks(k: Kernel, u: Kernel, m: nat, o: Tid)
    requires LockWaited(k, u, m, o) && Inherits(k)
    ensures forall n, l :: Backs(k, n, l) ==> Backs(u, n, l)
    ensures Backs(u, m, T(k.s, Self(k)).prio)
  {
    hide T, R, W;
    assert forall x :: T(u.s, x).base == T(k.s, x).base;
    assert Self(k) in W(u.s, MutexWaiters(m));
  }

  lemma LockWaitKeepsExact(k: Kernel, u: Kernel, m: nat, o: Tid)
    requires LockWaited(k, u, m, o) && Exact(k) && OwnersUp(k) && !Timed(T(u.s, Self(k)).call)
    requires forall n, l :: Backs(k, n, l) ==> Backs(u, n, l)
    requires Backs(u, m, T(k.s, Self(k)).prio)
    ensures Exact(u)
  {
    hide T, R, W, Backs;
    assert forall t, n :: Owns(u, t, n) <==> Owns(k, t, n);
    assert forall t, n :: HoldsNone(k, t) ==> !Owns(k, t, n);
    hide Owns, HoldsNone;
  }

  lemma LockWaitKeepsStale(k: Kernel, u: Kernel, m: nat, o: Tid)
    requires LockWaited(k, u, m, o) && StaleExcused(k)
    requires forall n, l :: Backs(k, n, l) ==> Backs(u, n, l)
    requires forall x, n :: Owns(k, x, n) ==> x in k.s.tasks
    ensures StaleExcused(u)
  {
    hide T, R, W, Backs;
    forall n | n in u.s.bits && R(u.s, n) == [] ensures Excused(u, n) {
      assert Excused(k, n);
      var x, y :| Owns(k, y, x) && Backs(k, x, n) && Above(k.s, y, n);
      assert Owns(u, y, x) && Backs(u, x, n) && Above(u.s, y, n);
    }
  }

  /** The head waiter is READY on the list of its own priority, the highest of the waiters'. */
  ghost predicate Promoted(k: Kernel, u: Kernel, m: nat, w: Tid) {
    && w in W(k.s, MutexWaiters(m)) && w != Self(k) && T(u.s, w).state == Ready
    && T(u.s, w).prio == T(k.s, w).prio && T(u.s, w).base == T(k.s, w).base
    && T(u.s, w).link == OnReady(T(k.s, w).prio) && u.s.bits == k.s.bits + {T(k.s, w).prio}
        && R(u.s, T(k.s, w).prio) != []
    && (forall t :: t in W(k.s, MutexWaiters(m)) && t != w ==> T(k.s, w).prio >= T(k.s, t).prio)
  }

  /** The waiters of every mutex go on waiting, but for the head of `m`. */
  ghost predicate WaitersAfter(k: Kernel, u: Kernel, m: nat, w: Option<Tid>) {
    && (forall n, t {:trigger t in W(u.s, MutexWaiters(n))} ::
          t in W(u.s, MutexWaiters(n)) ==> t in W(k.s, MutexWaiters(n)) && w != Some(t))
    && (forall n, t {:trigger t in W(k.s, MutexWaiters(n))} ::
          t in W(k.s, MutexWaiters(n)) ==> t in W(u.s, MutexWaiters(n)) || w == Some(t))
    && (forall n, t {:trigger t in W(k.s, MutexWaiters(n))} :: t in W(k.s, MutexWaiters(n)) && w == Some(t) ==> n == m)
  }

  /** The last unlock as the invariant sees it: `self` is back at its base, and `w` owns `m`. */
  ghost predicate HandedOver(k: Kernel, u: Kernel, m: nat, w: Option<Tid>) {
    var self := Self(k);
    && Owns(k, self, m) && self in k.s.tasks && T(k.s, self).state == Running && k.s.cur == Some(self) == u.s.cur
    && u.mutexes.Keys == k.mutexes.Keys && u.mutexes[m].owner == w
    && (forall n :: n in k.mutexes && n != m ==> u.mutexes[n] == k.mutexes[n])
    && u.s.tasks.Keys == k.s.tasks.Keys
    && T(u.s, self) == T(k.s, self).(prio := T(k.s, self).base)
    && (w == None ==> (forall t :: t !in W(k.s, MutexWaiters(m))) && u.s.bits == k.s.bits)
    && (w.Some? ==> Promoted(k, u, m, w.value))
    && (forall x :: x != self && w != Some(x) ==> T(u.s, x) == T(k.s, x))
    && WaitersAfter(k, u, m, w)
    && (forall n, t {:trigger t in W(k.s, MutexWaiters(n))} ::
          t in W(k.s, MutexWaiters(n)) ==> t in k.s.tasks && T(k.s, t).state == Blocked && HoldsNone(k, t))
    && (forall n :: R(k.s, n) <= R(u.s, n))
    && (forall t :: t in k.s.tasks && T(k.s, t).state == Running ==> t == self && T(k.s, t).link == Off)
    && (forall t, n :: Owns(k, t, n) ==> t in k.s.tasks)
  }

  lemma HeadIsFirst(s: Sched, m: nat)
    requires WaitsSorted(s) && W(s, MutexWaiters(m)) != []
    ensures var q := W(s, MutexWaiters(m)); forall t :: t in q && t != q[0] ==> T(s, q[0]).prio >= T(s, t).prio
  {
    hide T, W;
    var q := W(s, MutexWaiters(m));
    assert SortedBy(s, q);
  }

  lemma WaitersHoldNone(k: Kernel)
    requires Linked(k.s) && AllPlaced(k.s) && OwnersUp(k) && Inherits(k)
    ensures forall n, t {:trigger t in W(k.s, MutexWaiters(n))} ::
      t in W(k.s, MutexWaiters(n)) ==> t in k.s.tasks && T(k.s, t).state == Blocked && HoldsNone(k, t)
  {
    hide Linked, AllPlaced, OwnersUp, Inherits, T, W;
    forall n, t | t in W(k.s, MutexWaiters(n)) ensures t in k.s.tasks && T(k.s, t).state == Blocked && HoldsNone(k, t) {
      WaiterAtBase(k, n, t);
    }
  }

  lemma OneListEach(s: Sched)
    requires Linked(s)
    ensures forall v, w, t {:trigger t in W(s, v), t in W(s, w)} :: t in W(s, v) && t in W(s, w) ==> v == w
    ensures forall v :: NoDup(W(s, v))
  {
    hide T, W, NoDup;
    forall v, w, t | t in W(s, v) && t in W(s, w) ensures v == w { assert T(s, t).event == Some(v); }
  }

  lemma UnlockSorted(k: Kernel, m: nat)
    requires Inv(k) && TaskCode(k) && m in k.mutexes && k.mutexes[m].owner == Some(Self(k)) && WaitsSorted(k.s)
    requires (k.mutexes[m].depth + U32 - 1) % U32 == 0
    ensures WaitsSorted(MutexUnlock(k, m).0.s)
  {
    hide Inv, Linked, AllPlaced, Placed, MutexUnlock, WaitsSorted, WakeWaiter, Restore, TaskCode, T, R, W;
    SelfFacts(k);
    MutexesOfInv(k);
    var r, w, u := UnlockHandsOver(k, m);
    NotWaiting(k.s, Self(k));
    SortedWhenSame(k.s, r);
    WakeSorted(r, MutexWaiters(m));
  }

  lemma UnlockWaiters(k: Kernel, m: nat) returns (w: Option<Tid>, u: Kernel)
    requires Inv(k) && TaskCode(k) && Releases(k, m)
    ensures u == MutexUnlock(k, m).0 && WaitersAfter(k, u, m, w)
    ensures w == if W(k.s, MutexWaiters(m)) == [] then None else Some(W(k.s, MutexWaiters(m))[0])
  {
    hide Inv, Linked, AllPlaced, MutexUnlock, MakeReady, Restore, TaskCode, NoDup, Without, T, R, W;
    MutexesOfInv(k);
    OneListEach(k.s);
    var r, s;
    r, w, s := UnlockHandsOver(k, m);
    u := MutexUnlock(k, m).0;
    if w.Some? {
      WaiterIsBlocked(r, MutexWaiters(m));
      s := MakeReadyFrame(r, w.value, OK);
      WithoutNoDup(W(r, MutexWaiters(m)), w.value);
    }
  }

  lemma UnlockView(k: Kernel, m: nat) returns (w: Option<Tid>, u: Kernel)
    requires Inv(k) && TaskCode(k) && m in k.mutexes && k.mutexes[m].owner == Some(Self(k))
    requires (k.mutexes[m].depth + U32 - 1) % U32 == 0
    requires OwnersUp(k) && Inherits(k) && WaitsSorted(k.s)
    ensures u == MutexUnlock(k, m).0 && HandedOver(k, u, m, w) && WaitsSorted(u.s)
  {
    hide Inv, Linked, AllPlaced, Placed, MutexUnlock, OwnersUp, Inherits, WaitsSorted, MakeReady, Restore, TaskCode,
         NoDup, Without, WaitersAfter, T, R, W;
    SelfFacts(k);
    MutexesOfInv(k);
    OffIfRunning(k.s);
    WaitersHoldNone(k);
    UnlockSorted(k, m);
    w, u := UnlockWaiters(k, m);
    var r, v, s := UnlockHandsOver(k, m);
    if w.Some? {
      HeadIsFirst(k.s, m);
      WaiterIsBlocked(r, MutexWaiters(m));
      s := MakeReadyFrame(r, w.value, OK);
    }
  }

  /** Who holds what after the hand-over. */
  ghost predicate NewHolders(k: Kernel, u: Kernel, m: nat, w: Option<Tid>) {
    && (forall t, n {:trigger Owns(u, t, n)} ::
          Owns(u, t, n) ==> if n == m then w == Some(t) else Owns(k, t, n) && t != Self(k))
    && (forall t :: HoldsNone(u, t) ==> (HoldsNone(k, t) && w != Some(t)) || t == Self(k))
    && (w.Some? ==> forall n :: !Owns(k, w.value, n))
  }

  lemma HandedOverHolders(k: Kernel, u: Kernel, m: nat, w: Option<Tid>)
    requires HandedOver(k, u, m, w) && OwnersUp(k)
    ensures NewHolders(k, u, m, w)
  {
    hide T, R, W;
    assert forall t: Tid, n :: Owns(u, t, n) <==> if n == m then w == Some(t) else Owns(k, t, n);
    assert forall n :: Owns(k, Self(k), n) ==> n == m;
    assert w.Some? ==> Owns(u, w.value, m);
    HolderOwnsNothing(k);
    HolderOwnsNothing(u);
  }

  lemma HandedOverKeepsUp(k: Kernel, u: Kernel, m: nat, w: Option<Tid>)
    requires HandedOver(k, u, m, w) && NewHolders(k, u, m, w) && OwnersUp(k)
    ensures OwnersUp(u) && (IdleUp(k.s) ==> IdleUp(u.s))
  {
    hide T, R, W, HoldsNone, Owns;
  }

  lemma HandedOverKeepsInherits(k: Kernel, u: Kernel, m: nat, w: Option<Tid>)
    requires HandedOver(k, u, m, w) && NewHolders(k, u, m, w) && Inherits(k)
    ensures Inherits(u)
  {
    hide T, R, W, HoldsNone, Owns;
  }

  lemma HandedOverKeepsLevels(k: Kernel, u: Kernel, m: nat, w: Option<Tid>)
    requires HandedOver(k, u, m, w) && NewHolders(k, u, m, w) && LevelsOk(k)
    ensures LevelsOk(u)
  {
    hide T, R, W, HoldsNone, Owns;
  }

  lemma HolderOwnsNothing(k: Kernel)
    ensures forall t, i :: HoldsNone(k, t) ==> !Owns(k, t, i)
  {}

  /** What still backs a level after the hand-over. */
  lemma HandedOverBacks(k: Kernel, u: Kernel, m: nat, w: Option<Tid>)
    requires HandedOver(k, u, m, w)
    ensures forall n, l :: n != m && Backs(k, n, l) ==> Backs(u, n, l)
    ensures w.Some? ==> Backs(u, m, T(k.s, w.value).base)
    ensures forall l :: Backs(k, m, l) ==>
      l == T(k.s, Self(k)).base || (w.Some? && l == T(k.s, w.value).base)
          || (w.Some? && LeftBehind(k, u, m, w.value, l))
  {
    hide T, R, W, HoldsNone;
    assert forall x :: T(u.s, x).base == T(k.s, x).base;
    forall l | Backs(k, m, l) && l != T(k.s, Self(k)).base && (w.Some? ==> l != T(k.s, w.value).base)
      ensures w.Some? && LeftBehind(k, u, m, w.value, l)
    {
      var t :| t in W(k.s, MutexWaiters(m)) && T(k.s, t).base == l;
      assert t in W(u.s, MutexWaiters(m)) && Backs(u, m, l);
    }
  }

  /** A waiter of base `l` goes on waiting. */
  ghost predicate LeftBehind(k: Kernel, u: Kernel, m: nat, w: Tid, l: nat) {
    Backs(u, m, l) && exists t :: t in W(k.s, MutexWaiters(m)) && t != w && T(k.s, t).base == l
  }

  lemma HandedOverKeepsExact(k: Kernel, u: Kernel, m: nat, w: Option<Tid>)
    requires HandedOver(k, u, m, w) && Exact(k) && Inherits(k) && OwnersUp(k)
    requires forall n, l :: n != m && Backs(k, n, l) ==> Backs(u, n, l)
    requires w.Some? ==> Backs(u, m, T(k.s, w.value).base)
    ensures Exact(u)
  {
    hide T, R, W, Backs;
    assert forall t: Tid, n :: Owns(u, t, n) <==> if n == m then w == Some(t) else Owns(k, t, n);
    assert forall n :: Owns(k, Self(k), n) ==> n == m;
    assert forall t, n :: HoldsNone(k, t) ==> !Owns(k, t, n);
    hide Owns, HoldsNone;
  }

  lemma HandedOverExcuses(k: Kernel, u: Kernel, m: nat, w: Option<Tid>, n: nat)
    requires HandedOver(k, u, m, w) && Exact(k) && Inherits(k) && OwnersUp(k) && StaleExcused(k)
    requires n in u.s.bits && R(u.s, n) == []
    requires forall i, l :: i != m && Backs(k, i, l) ==> Backs(u, i, l)
    requires forall l :: Backs(k, m, l) ==>
      l == T(k.s, Self(k)).base || (w.Some? && l == T(k.s, w.value).base)
          || (w.Some? && LeftBehind(k, u, m, w.value, l))
    ensures Excused(u, n)
  {
    hide T, R, W, Backs, HoldsNone, LevelsOk;
    var self := Self(k);
    HolderOwnsNothing(k);
    assert R(k.s, n) <= R(u.s, n);
    assert Excused(k, n);
    var x: nat, y: Tid :| Owns(k, y, x) && Backs(k, x, n) && (y == self || Above(k.s, y, n));
    if x != m {
      assert y != self && (w.Some? ==> !Owns(k, w.value, x));
      assert Above(k.s, y, n);
      assert w != Some(y) && T(u.s, y) == T(k.s, y);
      assert Owns(u, y, x) && Backs(u, x, n) && Above(u.s, y, n);
    } else if n != T(k.s, self).base {
      var t :| t in W(k.s, MutexWaiters(m)) && w.Some? && t != w.value && T(k.s, t).base == n && Backs(u, m, n);
      assert T(k.s, t).prio == n;
      assert Owns(u, w.value, m) && Above(u.s, w.value, n);
    }
  }

  lemma UnlockKeepsInh(k: Kernel, m: nat, rules: Rules)
    requires Inv(k) && Inh(k, rules) && TaskCode(k) && m in k.mutexes && k.mutexes[m].owner == Some(Self(k))
    requires (k.mutexes[m].depth + U32 - 1) % U32 == 0
    ensures Inh(MutexUnlock(k, m).0, rules)
  {
    hide Inv, MutexUnlock, TaskCode, OwnersUp, Inherits, LevelsOk, Exact, WaitsSorted, HandedOver, NewHolders, Backs,
         Excused, LeftBehind, T, R, W;
    var w, u := UnlockView(k, m);
    HandedOverHolders(k, u, m, w);
    HandedOverKeepsUp(k, u, m, w);
    HandedOverKeepsInherits(k, u, m, w);
    HandedOverKeepsLevels(k, u, m, w);
    if rules != TimedLocks {
      HandedOverBacks(k, u, m, w);
      HandedOverKeepsExact(k, u, m, w);
    }
    if rules == Strict {
      forall n | n in u.s.bits && R(u.s, n) == [] ensures Excused(u, n) { HandedOverExcuses(k, u, m, w, n); }
    }
  }

  // ---- every disciplined run -------------------------------------------------------------

  lemma OrdinaryIsOrdinarily(k: Kernel, step: Step)
    requires Inv(k) && Enabled(k, step) && NoMutex(step) && !Rearranges(step)
    requires Next(k, step).1 == Waits ==> HoldsNone(k, Self(k))
    ensures Ordinarily(k, Next(k, step).0, Actor(k, step), Answer(step), Next(k, step).1 == Waits)
  {
    hide Inv, Linked, AllPlaced, MutexesOk, Quiet, IdleKept, Evolves, Enabled, Next, HoldsNone, T, W;
    MutexesOfInv(k);
    NextKeeps(k, step);
    MutexesOfInv(Next(k, step).0);
    OrdinaryStep(k, step);
    MutexesUntouched(k, step);
  }

  lemma LockReturnIsOrdinarily(k: Kernel, m: nat)
    requires Inv(k) && Enabled(k, LockReturn(m))
    ensures Ordinarily(k, Next(k, LockReturn(m)).0, Some(Self(k)), OK, false)
  {
    hide Inv, Linked, AllPlaced, Placed, MutexesOk, Quiet, IdleKept, Evolves, Leave, HoldsNone, T, W;
    MutexesOfInv(k);
    SelfFacts(k);
    LeaveQuiet(k.s, Self(k));
    OrdinaryLeave(k);
  }

  // ---- suspend and resume ----------------------------------------------------------------

  /** A task that holds nothing leaves or joins the list of its own priority. */
  ghost predicate SetAside(k: Kernel, u: Kernel, t: Tid) {
    && u == k.(s := u.s) && u.s.tasks.Keys == k.s.tasks.Keys && u.s.cur == k.s.cur && u.s.arrivals == k.s.arrivals
    && HoldsNone(k, t) && T(u.s, t) == T(k.s, t).(state := T(u.s, t).state, link := T(u.s, t).link)
    && (T(u.s, t).link.OnReady? ==> T(u.s, t).link.level == T(k.s, t).prio)
    && (forall x :: x != t ==> T(u.s, x) == T(k.s, x)) && (forall w :: W(u.s, w) == W(k.s, w))
    && (forall n :: n in u.s.bits && R(u.s, n) == [] ==> n in k.s.bits && R(k.s, n) == [])
  }

  lemma AsideKeepsInh(k: Kernel, u: Kernel, t: Tid, rules: Rules)
    requires SetAside(k, u, t) && Inh(k, rules)
    requires rules == Strict ==> T(k.s, t).state != Running && IdleUp(u.s)
    ensures Inh(u, rules)
  {
    hide T, R, W, SortedBy;
    assert forall x, m :: Owns(u, x, m) <==> Owns(k, x, m);
    assert forall x :: HoldsNone(u, x) <==> HoldsNone(k, x);
    assert forall m :: HoldsNone(k, t) ==> !Owns(k, t, m);
    assert forall m, n :: Backs(k, m, n) <==> Backs(u, m, n);
    hide HoldsNone, Owns, Backs;
    SortedWhenSame(k.s, u.s);
    if rules == Strict {
      forall n | n in u.s.bits && R(u.s, n) == [] ensures Excused(u, n) {
        assert Excused(k, n);
        if m, o :| Owns(k, o, m) && Backs(k, m, n) && Above(k.s, o, n) {
          assert Owns(u, o, m) && Backs(u, m, n) && Above(u.s, o, n);
        }
      }
    }
  }

  lemma SuspendSetsAside(k: Kernel, t: Tid)
    requires Inv(k) && LevelsOk(k) && TaskCode(k) && t in k.s.tasks && HoldsNone(k, t)
    requires T(k.s, t).state == Ready || T(k.s, t).state == Running
    ensures SetAside(k, k.(s := SuspendTask(k.s, t)), t)
  {
    MutexesOfInv(k);
    OffIfRunning(k.s);
    BitsOf(k.s);
    hide Inv, Inh, OwnersUp, Inherits, WaitsSorted, Linked, AllPlaced, Placed, HoldsNone, SuspendTask, TaskCode, T, R,
         W, Without;
    var s := SuspendEffect(k.s, t);
  }

  lemma SuspendKeepsInh(k: Kernel, t: Tid, rules: Rules)
    requires Inv(k) && Enabled(k, Suspend(t)) && Disciplined(k, Suspend(t), rules) && Inh(k, rules)
    ensures Inh(k.(s := SuspendTask(k.s, t)), rules)
  {
    hide Inv, Inh, SetAside, HoldsNone, SuspendTask, TaskCode, T;
    InhOwners(k, rules);
    if T(k.s, t).state == Blocked || T(k.s, t).state == Suspended { StaysAside(k.s, t); } else {
      SuspendSetsAside(k, t);
      if rules == Strict { OthersIdleUp(k, t); }
      AsideKeepsInh(k, k.(s := SuspendTask(k.s, t)), t, rules);
    }
  }

  lemma OthersIdleUp(k: Kernel, t: Tid)
    requires Inv(k) && TaskCode(k) && t in k.s.tasks && t != IDLE && t != Self(k) && Inh(k, Strict)
    ensures T(k.s, t).state != Running && IdleUp(SuspendTask(k.s, t))
  {
    NotRunning(k, t);
    hide Inv, OwnersUp, Inherits, WaitsSorted, LevelsOk, Exact, StaleExcused, SuspendTask, T;
    var s := SuspendEffect(k.s, t);
  }

  lemma StaysAside(s: Sched, t: Tid)
    requires T(s, t).state == Blocked || T(s, t).state == Suspended
    ensures SuspendTask(s, t) == s
  {}

  lemma ResumeKeepsInh(k: Kernel, t: Tid, rules: Rules)
    requires Inv(k) && Enabled(k, Resume(t)) && Inh(k, rules)
    ensures Inh(k.(s := ResumeTask(k.s, t)), rules)
  {
    hide Inv, Inh, OwnersUp, Inherits, WaitsSorted, LevelsOk, HoldsNone, ResumeTask, TaskCode, T, R, W;
    InhOwners(k, rules);
    var s := ResumeEffect(k.s, t);
    if T(k.s, t).state == Suspended {
      SuspendedHoldsNone(k, t);
      AsideKeepsInh(k, k.(s := s), t, rules);
    }
  }

  lemma SuspendedHoldsNone(k: Kernel, t: Tid)
    requires OwnersUp(k) && T(k.s, t).state == Suspended
    ensures HoldsNone(k, t)
  {}

  lemma LockKeepsInh(k: Kernel, m: nat, timeout: nat, rules: Rules)
    requires Inv(k) && Enabled(k, Lock(m, timeout)) && Disciplined(k, Lock(m, timeout), rules) && Inh(k, rules)
    ensures Inh(MutexLock(k, m, timeout).0, rules)
  {
    hide Inv, Inh, HoldsNone, BlockOn, Boost, T;
    SelfFacts(k);
    var u := MutexLock(k, m, timeout).0;
    if MutexLock(k, m, timeout).1 == Waits { LockWaitKeepsInh(k, m, timeout, rules); }
    else if u != k { TakingKeepsInh(k, u, Self(k), m, rules); }
  }

  lemma AnyUnlockKeepsInh(k: Kernel, m: nat, rules: Rules)
    requires Inv(k) && Enabled(k, Unlock(m)) && Inh(k, rules)
    ensures Inh(MutexUnlock(k, m).0, rules)
  {
    hide Inv, Inh, HoldsNone, Restore, WakeWaiter, T;
    SelfFacts(k);
    if k.mutexes[m].owner == Some(Self(k)) {
      if (k.mutexes[m].depth + U32 - 1) % U32 == 0 { UnlockKeepsInh(k, m, rules); }
      else { TakingKeepsInh(k, MutexUnlock(k, m).0, Self(k), m, rules); }
    }
  }

  /** Every disciplined step keeps the invariant. */
  lemma NextKeepsInh(k: Kernel, step: Step, rules: Rules)
    requires Inv(k) && Enabled(k, step) && Disciplined(k, step, rules) && Inh(k, rules)
    ensures Inh(Next(k, step).0, rules)
  {
    hide Inv, Inh, Ordinarily, HoldsNone, MutexLock, MutexUnlock, MutexLockReturn, SelectNext, SuspendTask,
         ResumeTask, T;
    match step
    case Switch => SwitchKeepsInh(k, Next(k, step).0, rules);
    case Suspend(t) => SuspendKeepsInh(k, t, rules);
    case Resume(t) => ResumeKeepsInh(k, t, rules);
    case Lock(m, timeout) => LockKeepsInh(k, m, timeout, rules);
    case LockReturn(m) =>
      LockReturnIsOrdinarily(k, m);
      OrdinaryKeepsInh(k, Next(k, step).0, Some(Self(k)), OK, false, rules);
    case Unlock(m) => AnyUnlockKeepsInh(k, m, rules);
    case _ => RestKeepsInh(k, step, rules);
  }

  lemma InhOwners(k: Kernel, rules: Rules)
    requires Inh(k, rules)
    ensures OwnersUp(k) && Inherits(k) && LevelsOk(k) && WaitsSorted(k.s) && (rules == Strict ==> IdleUp(k.s))
  {}

  lemma RestKeepsInh(k: Kernel, step: Step, rules: Rules)
    requires Inv(k) && Enabled(k, step) && Disciplined(k, step, rules) && Inh(k, rules)
    requires NoMutex(step) && !Rearranges(step)
    ensures Inh(Next(k, step).0, rules)
  {
    hide Inv, Inh, Ordinarily, HoldsNone, Enabled, Next;
    OrdinaryIsOrdinarily(k, step);
    OrdinaryKeepsInh(k, Next(k, step).0, Actor(k, step), Answer(step), Next(k, step).1 == Waits, rules);
  }

  lemma BootInh(k: Kernel, rules: Rules)
    requires Boot(k)
    ensures Inh(k, rules)
  {
    var s := Sched(map[], map[], {}, [], map[], 0, None, 0);
    var c := Tcb(0, 0, Ready, Off, None, 0, OK, NoCall, 0, 0);
    assert k.s == AddReady(SetT(s, IDLE, c), IDLE);
    assert forall t, m :: !Owns(k, t, m);
    assert forall w :: W(k.s, w) == [];
    assert forall t :: t in k.s.tasks ==> t == IDLE;
    assert T(k.s, IDLE) == c.(link := OnReady(0));
    assert R(k.s, 0) == [IDLE] && k.s.bits == {0};
  }

  lemma {:induction false} RunKeepsInh(k: Kernel, steps: seq<Step>, rules: Rules)
    requires Inv(k) && Inh(k, rules) && Legal(k, steps) && DisciplinedRun(k, steps, rules)
    ensures Inv(Run(k, steps)) && Inh(Run(k, steps), rules)
    decreases |steps|
  {
    if steps != [] {
      hide Inv, Inh, Next, Enabled, Disciplined;
      NextKeeps(k, steps[0]);
      NextKeepsInh(k, steps[0], rules);
      RunKeepsInh(Next(k, steps[0]).0, steps[1..], rules);
    }
  }

  // ---- the theorems ----------------------------------------------------------------------

  /** Dispatch safety: after any disciplined run, select_next finds a task at the highest set bit. */
  lemma DispatchNeverFails(k: Kernel, steps: seq<Step>)
    requires Boot(k) && Legal(k, steps) && DisciplinedRun(k, steps, Strict)
    ensures CanDispatch(Run(k, steps).s)
  {
    hide Boot, Inv, Inh, CanDispatch;
    BootInv(k);
    BootInh(k, Strict);
    RunKeepsInh(k, steps, Strict);
    DispatchSafe(Run(k, steps));
  }

  /** `p` is the highest of the owner's base priority and its waiters' priorities. */
  ghost predicate IsInherited(k: Kernel, o: Tid, m: nat, p: nat) {
    var waiters := W(k.s, MutexWaiters(m));
    && p >= T(k.s, o).base && (forall w :: w in waiters ==> p >= T(k.s, w).prio)
    && (p == T(k.s, o).base || exists w :: w in waiters && p == T(k.s, w).prio)
  }

  /** Exact inheritance: an owner runs at the inherited priority, everybody else at the base priority. */
  lemma ExactInheritance(k: Kernel, steps: seq<Step>)
    requires Boot(k) && Legal(k, steps) && DisciplinedRun(k, steps, PatientLocks)
    ensures var u := Run(k, steps);
      && (forall o, m :: Owns(u, o, m) ==> IsInherited(u, o, m, T(u.s, o).prio))
      && (forall t :: t in u.s.tasks && (forall m :: !Owns(u, t, m)) ==> T(u.s, t).prio == T(u.s, t).base)
  {
    hide Boot, Inv, Inh;
    BootInv(k);
    BootInh(k, PatientLocks);
    RunKeepsInh(k, steps, PatientLocks);
    var u := Run(k, steps);
    InhOwners(u, PatientLocks);
    forall o, m | Owns(u, o, m) ensures IsInherited(u, o, m, T(u.s, o).prio) { InheritedHere(u, o, m); }
  }

  lemma InheritedHere(u: Kernel, o: Tid, m: nat)
    requires Inv(u) && Inh(u, PatientLocks) && Owns(u, o, m)
    ensures IsInherited(u, o, m, T(u.s, o).prio)
  {
    hide Inv, OwnersUp, LevelsOk, WaitsSorted, StaleExcused, T, W;
    MutexesOfInv(u);
    var p := T(u.s, o).prio;
    assert Backs(u, m, p);
    if p != T(u.s, o).base {
      var w :| w in W(u.s, MutexWaiters(m)) && T(u.s, w).base == p;
      WaiterAtBase(u, m, w);
    }
  }

  /** With timeouts allowed the boost can outlive its reason, but an owner never runs below a waiter. */
  lemma InheritanceAtLeast(k: Kernel, steps: seq<Step>)
    requires Boot(k) && Legal(k, steps) && DisciplinedRun(k, steps, TimedLocks)
    ensures var u := Run(k, steps); forall o, m :: Owns(u, o, m) ==>
      T(u.s, o).prio >= T(u.s, o).base && forall w :: w in W(u.s, MutexWaiters(m)) ==> T(u.s, o).prio >= T(u.s, w).prio
  {
    hide Boot, Inv, Inh;
    BootInv(k);
    BootInh(k, TimedLocks);
    RunKeepsInh(k, steps, TimedLocks);
    InhOwners(Run(k, steps), TimedLocks);
  }
}

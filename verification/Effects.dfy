/**
 * What one step of any kind does to each task and list: one statement per kind of step, and one for all of them,
 * from which the theorems about calls, signals, suspension, time slicing and dispatch start.
 */
module Effects {
  import opened Base
  import opened Sequences
  import opened Scheduler
  import opened Membership
  import opened Evolution
  import opened Kernel
  import opened Invariants

  // ---- the mutex steps -------------------------------------------------------------------

  /** A lock that waits: the caller is blocked, and of all other tasks only the owner may change, in its priority. */
  lemma LockEffect(k: Kernel, m: nat, timeout: nat) returns (u: Sched)
    requires Inv(k) && Enabled(k, Lock(m, timeout))
    ensures u == MutexLock(k, m, timeout).0.s
    ensures MutexLock(k, m, timeout).1 != Waits ==> u == k.s
    ensures MutexLock(k, m, timeout).1 == Waits ==> timeout > 0 && k.mutexes[m].owner.Some?
    ensures u.tasks.Keys == k.s.tasks.Keys && u.cur == k.s.cur && u.tick == k.s.tick
    ensures forall x :: x != Self(k) ==>
      T(u, x) == T(k.s, x).(prio := if MutexLock(k, m, timeout).1 == Waits && k.mutexes[m].owner == Some(x)
                                    then Max(T(k.s, Self(k)).prio, T(k.s, x).prio) else T(k.s, x).prio)
    ensures MutexLock(k, m, timeout).1 == Waits ==>
      var call, c := Locking(m, timeout), T(k.s, Self(k));
      && k.mutexes[m].owner != Some(Self(k))
      && T(u, Self(k)) == c.(state := Blocked, link := if Timed(call) then OnDelayed else Off, event := WaitsOn(call),
                             wake := if Timed(call) then (k.s.tick + timeout) % U32 else c.wake,
                             call := call, answers := 0, arrived := k.s.arrivals)
      && u.bits == if R(k.s, c.prio) == [] then k.s.bits - {c.prio} else k.s.bits
    ensures forall n :: R(u, n) == R(k.s, n)
  {
    hide Inv, BlockOn, Boost, Linked, AllPlaced, Placed, TaskCode, T, R, W, InsertWaiter;
    SelfFacts(k);
    u := MutexLock(k, m, timeout).0.s;
    if MutexLock(k, m, timeout).1 == Waits {
      LockHasTimeout(k, m, timeout);
      hide MutexLock;
      var o, b;
      o, b, u := LockWaits(k, m, timeout);
      u := BlockOnFrame(b, Self(k), Locking(m, timeout));
    }
  }

  lemma LockHasTimeout(k: Kernel, m: nat, timeout: nat)
    requires m in k.mutexes && MutexLock(k, m, timeout).1 == Waits
    ensures timeout > 0 && k.mutexes[m].owner.Some? && k.mutexes[m].owner != Some(Self(k))
  {}

  /** The unlock that lets the mutex go. */
  predicate Releases(k: Kernel, m: nat) {
    m in k.mutexes && k.mutexes[m].owner == Some(Self(k)) && (k.mutexes[m].depth + U32 - 1) % U32 == 0
  }

  /** An unlock: the caller is back at its base priority if it lets go, and the head waiter, if any, is woken. */
  lemma UnlockEffect(k: Kernel, m: nat) returns (u: Sched, w: Option<Tid>)
    requires Inv(k) && Enabled(k, Unlock(m))
    ensures u == MutexUnlock(k, m).0.s
    ensures !Releases(k, m) ==> u == k.s && w == None
    ensures Releases(k, m) ==> w == if W(k.s, MutexWaiters(m)) == [] then None else Some(W(k.s, MutexWaiters(m))[0])
    ensures w.Some? ==>
      w.value != Self(k) && w.value in k.s.tasks && T(k.s, w.value).state == Blocked && Answered(k.s, u, w.value, OK)
    ensures u.tasks.Keys == k.s.tasks.Keys && u.cur == k.s.cur && u.tick == k.s.tick
    ensures Releases(k, m) ==> T(u, Self(k)) == T(k.s, Self(k)).(prio := T(k.s, Self(k)).base)
    ensures forall x :: x != Self(k) && w != Some(x) ==> T(u, x) == T(k.s, x)
    ensures forall n :: R(u, n) == if w.Some? && n == T(k.s, w.value).prio then R(k.s, n) + [w.value] else R(k.s, n)
    ensures u.bits == if w.Some? then k.s.bits + {T(k.s, w.value).prio} else k.s.bits
  {
    hide Inv, Linked, AllPlaced, Placed, Restore, WakeWaiter, MakeReady, Without, TaskCode, T, R, W;
    SelfFacts(k);
    u, w := MutexUnlock(k, m).0.s, None;
    if Releases(k, m) {
      hide MutexUnlock;
      var r;
      r, w, u := UnlockHandsOver(k, m);
      var v := WokenFrame(r, MutexWaiters(m));
    }
  }

  /** A signal goes to the head of the wait list and to nobody else. */
  lemma WokenFrame(s: Sched, w: WaitList) returns (u: Sched)
    requires Linked(s) && AllPlaced(s)
    ensures u == WakeWaiter(s, w).0
    ensures W(s, w) == [] ==> u == s
    ensures W(s, w) != [] ==>
      var t := W(s, w)[0];
      && t in s.tasks && T(s, t).state == Blocked && T(s, t).event == Some(w) && Answered(s, u, t, OK)
      && (forall x :: x != t ==> T(u, x) == T(s, x)) && u.bits == s.bits + {T(s, t).prio}
      && (forall n :: R(u, n) == if n == T(s, t).prio then R(s, n) + [t] else R(s, n))
    ensures u.tasks.Keys == s.tasks.Keys && u.tick == s.tick && u.cur == s.cur
  {
    hide Linked, AllPlaced, MakeReady, T, W, R, Without;
    u := s;
    if W(s, w) != [] {
      WaiterIsBlocked(s, w);
      u := MakeReadyFrame(s, W(s, w)[0], OK);
    }
  }

  lemma LockReturnEffect(k: Kernel, m: nat) returns (u: Sched)
    requires Inv(k) && Enabled(k, LockReturn(m))
    ensures u == MutexLockReturn(k, m).0.s
    ensures u.tasks.Keys == k.s.tasks.Keys && u.cur == k.s.cur && u.tick == k.s.tick && u.bits == k.s.bits
    ensures T(u, Self(k)) == T(k.s, Self(k)).(call := NoCall, answers := 0)
    ensures forall x :: x != Self(k) ==> T(u, x) == T(k.s, x)
    ensures (forall n :: R(u, n) == R(k.s, n)) && (forall w :: W(u, w) == W(k.s, w))
  {
    hide Inv, Placed, Leave, Resumed, T, R, W;
    SelfFacts(k);
    LeaveQuiet(k.s, Self(k));
    u := LeaveFrame(k.s, Self(k));
  }

  // ---- the steps that rearrange ----------------------------------------------------------

  /** What a switch does to each task. */
  lemma SwitchView(k: Kernel) returns (t: Tid, v: Sched, u: Sched)
    requires Inv(k) && CanDispatch(k.s)
    ensures t == Chosen(k.s) && v == Requeued(k.s) && u == SelectNext(k.s)
    ensures t in k.s.tasks && u.tasks.Keys == k.s.tasks.Keys && u.cur == Some(t) && u.arrivals == k.s.arrivals
    ensures forall x :: T(u, x) == T(k.s, x).(state := T(u, x).state, link := T(u, x).link)
    ensures T(u, t).state == Running && T(u, t).link == Off
    ensures forall x :: x != t && !IsRunning(k.s, x) ==> T(u, x) == T(k.s, x)
    ensures forall x ::
      x != t && IsRunning(k.s, x) ==> T(u, x).state == Ready && T(u, x).link == OnReady(T(k.s, x).prio)
    ensures IsRunning(k.s, t) || T(k.s, t).link == OnReady(TopLevel(v))
    ensures IsRunning(k.s, t) ==> T(k.s, t).prio == TopLevel(v)
    ensures forall w :: W(u, w) == W(k.s, w)
  {
    hide Inv, Linked, AllPlaced, CanDispatch, SelectNext, Chosen, TopLevel, Requeued, T, R, W;
    MutexesOfInv(k);
    CurrentExists(k.s);
    t := Chosen(k.s);
    v, u := SelectNextFrame(k.s);
    var _ := RequeuedFrame(k.s);
  }

  lemma SwitchEffect(k: Kernel) returns (u: Sched)
    requires Inv(k) && CanDispatch(k.s)
    ensures u == SelectNext(k.s) && u.tasks.Keys == k.s.tasks.Keys && u.tick == k.s.tick && u.cur == Some(Chosen(k.s))
    ensures forall x :: T(u, x) == T(k.s, x).(state := T(u, x).state, link := T(u, x).link)
    ensures forall x :: T(k.s, x).state == Blocked || T(k.s, x).state == Suspended ==> T(u, x) == T(k.s, x)
    ensures forall x :: x in k.s.tasks && T(k.s, x).state != Blocked && T(k.s, x).state != Suspended ==>
      T(u, x).state == Ready || T(u, x).state == Running
    ensures forall w :: W(u, w) == W(k.s, w)
  {
    hide Inv, Linked, AllPlaced, CanDispatch, SelectNext, Chosen, TopLevel, Requeued, T, R, W;
    MutexesOfInv(k);
    CurrentExists(k.s);
    var v;
    v, u := SelectNextFrame(k.s);
    v := RequeuedFrame(k.s);
  }

  lemma SuspendEffect(s: Sched, t: Tid) returns (u: Sched)
    requires t in s.tasks
    ensures u == SuspendTask(s, t) && u.tasks.Keys == s.tasks.Keys && u.tick == s.tick && u.cur == s.cur
    ensures u.arrivals == s.arrivals
    ensures T(u, t) == match T(s, t).state
                       case Ready => T(s, t).(state := Suspended, link := Off)
                       case Running => T(s, t).(state := Suspended)
                       case _ => T(s, t)
    ensures forall x :: x != t ==> T(u, x) == T(s, x)
    ensures forall n ::
      R(u, n) == if T(s, t).state == Ready && T(s, t).link == OnReady(n) then Without(R(s, n), t) else R(s, n)
    ensures forall w :: W(u, w) == W(s, w)
    ensures u.bits == if T(s, t).state == Ready && R(u, T(s, t).prio) == [] then s.bits - {T(s, t).prio} else s.bits
  {
    hide Remove, SetT, T, R, W, Without;
    u := s;
    if T(s, t).state == Ready { u := RemoveFrame(s, t); }
    if T(s, t).state == Ready || T(s, t).state == Running { u := SetTFrame(u, t, T(u, t).(state := Suspended)); }
  }

  lemma ResumeEffect(s: Sched, t: Tid) returns (u: Sched)
    requires t in s.tasks
    ensures u == ResumeTask(s, t) && u.tasks.Keys == s.tasks.Keys && u.tick == s.tick && u.cur == s.cur
    ensures u.arrivals == s.arrivals
    ensures T(s, t).state != Suspended ==> u == s
    ensures T(s, t).state == Suspended ==>
      var p := T(s, t).prio;
      && T(u, t) == T(s, t).(state := Ready, link := OnReady(p)) && u.bits == s.bits + {p}
      && forall n :: R(u, n) == if n == p then R(s, n) + [t] else R(s, n)
    ensures (forall x :: x != t ==> T(u, x) == T(s, x)) && (forall w :: W(u, w) == W(s, w))
  {
    hide AddReady, T, R, W;
    u := s;
    if T(s, t).state == Suspended { u := AddReadyFrame(s, t); }
  }

  // ---- the steps that wait, and the steps that only fill ready lists ---------------------

  /** The step puts its own task to sleep. */
  predicate Blocks(k: Kernel, step: Step) {
    match step
    case Delay(ticks) => ticks > 0
    case Lock(m, timeout) =>
      m in k.mutexes && k.mutexes[m].owner.Some? && k.mutexes[m].owner.value != Self(k) && timeout != NO_WAIT
    case Take(id, timeout) => id in k.sems && k.sems[id].count == 0 && timeout != NO_WAIT
    case Send(q, _, timeout) => q in k.queues && k.queues[q].count >= |k.queues[q].buffer| && timeout != NO_WAIT
    case Receive(q, timeout) => q in k.queues && k.queues[q].count == 0 && timeout != NO_WAIT
    case _ => false
  }

  lemma WaitsExactly(k: Kernel, step: Step)
    requires Enabled(k, step)
    ensures Next(k, step).1 == Waits <==> Blocks(k, step)
  {}

  /** The call a step makes, told from its arguments. */
  function CallOf(step: Step): Call {
    match step
    case Delay(ticks) => Delaying(ticks)
    case Lock(m, timeout) => Locking(m, timeout)
    case Take(id, timeout) => Taking(id, timeout)
    case Send(q, item, timeout) => Sending(q, item, timeout)
    case Receive(q, timeout) => Receiving(q, timeout)
    case _ => NoCall
  }

  /** The list its caller waits on, if it is made to wait. */
  function ListOf(step: Step): Option<WaitList> {
    match step
    case Lock(m, _) => Some(MutexWaiters(m))
    case Take(id, _) => Some(SemWaiters(id))
    case Send(q, _, _) => Some(Senders(q))
    case Receive(q, _) => Some(Receivers(q))
    case _ => None
  }

  /** For how many ticks it is ready to wait, unless for ever. */
  function Patience(step: Step): Option<nat> {
    match step
    case Delay(ticks) => Some(ticks)
    case Lock(_, timeout) => Finite(timeout)
    case Take(_, timeout) => Finite(timeout)
    case Send(_, _, timeout) => Finite(timeout)
    case Receive(_, timeout) => Finite(timeout)
    case _ => None
  }

  function Finite(timeout: nat): Option<nat> { if timeout == WAIT_FOREVER then None else Some(timeout) }

  /** `r` is `q` with `t` in front of the first task of strictly lower priority. */
  ghost predicate JoinsInOrder(s: Sched, q: seq<Tid>, r: seq<Tid>, t: Tid) {
    exists i: nat :: i <= |q| && r == InsertAt(q, i, t) && (forall j :: 0 <= j < i ==> T(s, q[j]).prio >= T(s, t).prio)
                     && (i < |q| ==> T(s, q[i]).prio < T(s, t).prio)
  }

  /**
   * `t` makes the call of `step` and waits in it: what becomes of its control block, of the other tasks and of every
   * list, told from the arguments of the call. `owner` is the task that is boosted.
   */
  ghost predicate Sleeps(s: Sched, u: Sched, t: Tid, step: Step, owner: Option<Tid>) {
    var c, wait, list := T(s, t), Patience(step), ListOf(step);
    && u.tasks.Keys == s.tasks.Keys && u.tick == s.tick && u.cur == s.cur
    && T(u, t) == c.(state := Blocked, link := if wait.Some? then OnDelayed else Off, event := list,
                     wake := if wait.Some? then (s.tick + wait.value) % U32 else c.wake, call := CallOf(step),
                     answers := 0, arrived := if list.Some? then s.arrivals else c.arrived)
    && (forall x :: x != t ==>
          T(u, x) == T(s, x).(prio := if owner == Some(x) then Max(c.prio, T(s, x).prio) else T(s, x).prio))
    && (forall n :: R(u, n) == R(s, n))
    && (forall w :: if list == Some(w) then JoinsInOrder(u, W(s, w), W(u, w), t) else W(u, w) == W(s, w))
    && u.delayed == (if wait.Some? then s.delayed + [t] else s.delayed)
    && u.bits == (if R(s, c.prio) == [] then s.bits - {c.prio} else s.bits)
    && u.arrivals == (if list.Some? then s.arrivals + 1 else s.arrivals)
  }

  /** Only a lock boosts, and only the owner of the mutex. */
  function Boosted(k: Kernel, step: Step): Option<Tid> {
    if step.Lock? && step.m in k.mutexes then k.mutexes[step.m].owner else None
  }

  lemma InsertedInOrder(s: Sched, u: Sched, q: seq<Tid>, t: Tid)
    requires T(u, t).prio == T(s, t).prio && forall x :: x in q ==> T(u, x).prio == T(s, x).prio
    ensures JoinsInOrder(u, q, InsertWaiter(s, q, t), t)
  {
    var i := PlaceInOrder(s, q, t);
    hide T, InsertWaiter;
    assert forall j :: 0 <= j < |q| ==> T(u, q[j]).prio == T(s, q[j]).prio;
  }

  lemma PlaceInOrder(s: Sched, q: seq<Tid>, t: Tid) returns (i: nat)
    ensures i <= |q| && InsertWaiter(s, q, t) == InsertAt(q, i, t)
    ensures (forall j :: 0 <= j < i ==> T(s, q[j]).prio >= T(s, t).prio) && (i < |q| ==> T(s, q[i]).prio < T(s, t).prio)
  {
    i := FirstBelow(Keys(s, q), T(s, t).prio);
  }

  lemma CallIsAsked(step: Step)
    requires CallOf(step) != NoCall
    ensures InKernel(CallOf(step)) && WaitsOn(CallOf(step)) == ListOf(step)
    ensures Timed(CallOf(step)) <==> Patience(step).Some?
    ensures Patience(step).Some? ==> Ticks(CallOf(step)) == Patience(step).value
  {}

  /** A task blocks in the call of `step`, in a state in which the owner is boosted already. */
  lemma BlockSleeps(s: Sched, b: Sched, t: Tid, step: Step, owner: Option<Tid>) returns (u: Sched)
    requires t in s.tasks && T(s, t).link == Off && T(s, t).event == None && CallOf(step) != NoCall && owner != Some(t)
    requires b == s.(tasks := b.tasks) && b.tasks.Keys == s.tasks.Keys
    requires forall x: Tid :: T(b, x) == T(s, x).(prio := if owner == Some(x) then Max(T(s, t).prio, T(s, x).prio)
                                                          else T(s, x).prio)
    requires (forall n :: R(b, n) == R(s, n)) && (forall w :: W(b, w) == W(s, w))
    ensures u == BlockOn(b, t, CallOf(step)) && Sleeps(s, u, t, step, owner)
  {
    hide BlockOn, JoinsInOrder, InsertWaiter, T, R, W, CallOf, ListOf, Patience, Timed, InKernel, WaitsOn, Ticks;
    CallIsAsked(step);
    u := BlockOnFrame(b, t, CallOf(step));
    BlockJoins(s, b, u, t, ListOf(step));
  }

  lemma BlockJoins(s: Sched, b: Sched, u: Sched, t: Tid, list: Option<WaitList>)
    requires (forall x :: T(u, x).prio == T(b, x).prio) && (forall w :: W(b, w) == W(s, w))
    requires forall w :: W(u, w) == if list == Some(w) then InsertWaiter(b, W(b, w), t) else W(b, w)
    ensures forall w :: if list == Some(w) then JoinsInOrder(u, W(s, w), W(u, w), t) else W(u, w) == W(s, w)
  {
    hide JoinsInOrder, InsertWaiter, T, W;
    if list.Some? { InsertedInOrder(b, u, W(s, list.value), t); }
  }

  /** A step that waits: told from its arguments. */
  lemma SleepsAsAsked(k: Kernel, step: Step)
    requires Inv(k) && Enabled(k, step) && Blocks(k, step)
    ensures var u := Next(k, step).0;
      u == k.(s := u.s) && Next(k, step).1 == Waits && Sleeps(k.s, u.s, Self(k), step, Boosted(k, step))
  {
    hide Inv, Linked, AllPlaced, Placed, TaskCode, BlockOn, MutexLock, Boost, Sleeps, T, R, W;
    SelfFacts(k);
    WaitsExactly(k, step);
    if step.Lock? {
      var o, b, u := LockWaits(k, step.m, step.timeout);
      var v := BlockSleeps(k.s, b, Self(k), step, Some(o));
    } else {
      var v := BlockSleeps(k.s, k.s, Self(k), step, None);
    }
  }

  /** The only priority that changes when a task waits is that of the owner of the mutex it waits for. */
  function PrioAfter(k: Kernel, step: Step, x: Tid): nat {
    if step.Lock? && Owns(k, x, step.m) then Max(T(k.s, Self(k)).prio, T(k.s, x).prio) else T(k.s, x).prio
  }

  /** A step that waits takes its task out of the running, and moves nobody else. */
  lemma BlockEffect(k: Kernel, step: Step) returns (u: Sched)
    requires Inv(k) && Enabled(k, step) && Blocks(k, step)
    ensures u == Next(k, step).0.s && u.tasks.Keys == k.s.tasks.Keys && u.cur == k.s.cur == Some(Self(k))
    ensures Self(k) in k.s.tasks && T(k.s, Self(k)).state == Running
    ensures T(u, Self(k)).state == Blocked && !T(u, Self(k)).link.OnReady? && T(u, Self(k)).prio == T(k.s, Self(k)).prio
    ensures forall x :: x != Self(k) ==> T(u, x) == T(k.s, x).(prio := PrioAfter(k, step, x))
    ensures forall n :: R(u, n) == R(k.s, n)
    ensures u.bits == if R(k.s, T(k.s, Self(k)).prio) == [] then k.s.bits - {T(k.s, Self(k)).prio} else k.s.bits
  {
    hide Inv, Linked, AllPlaced, Placed, TaskCode, BlockOn, MutexLock, Boost, T, R;
    SelfFacts(k);
    match step
    case Lock(m, timeout) => WaitsExactly(k, step); u := LockEffect(k, m, timeout);
    case Delay(ticks) => u := BlockOnFrame(k.s, Self(k), Delaying(ticks));
    case Take(id, timeout) => u := BlockOnFrame(k.s, Self(k), Taking(id, timeout));
    case Send(q, item, timeout) => u := BlockOnFrame(k.s, Self(k), Sending(q, item, timeout));
    case Receive(q, timeout) => u := BlockOnFrame(k.s, Self(k), Receiving(q, timeout));
  }

  /** Ready lists grow at the tail, and whoever can run goes on so. */
  ghost predicate Gathers(s: Sched, u: Sched) {
    && s.tasks.Keys <= u.tasks.Keys && u.cur == s.cur && s.bits <= u.bits
    && (forall n :: n in u.bits && n !in s.bits ==> R(u, n) != [])
    && (forall n :: R(s, n) <= R(u, n))
    && (forall t :: t in s.tasks && T(s, t).state == Ready ==> T(u, t) == T(s, t))
    && (forall t :: t in s.tasks && T(s, t).state == Running ==> T(u, t).state == Running)
    && (forall t :: t in u.tasks && T(u, t).state == Ready ==>
          (t in s.tasks && T(s, t).state == Ready) || T(u, t).link == OnReady(T(u, t).prio))
  }

  predicate OnlyGathers(k: Kernel, step: Step) { !Blocks(k, step) && step != Switch && !step.Suspend? }

  lemma GatherEffect(k: Kernel, step: Step) returns (u: Sched)
    requires Inv(k) && Enabled(k, step) && OnlyGathers(k, step)
    ensures u == Next(k, step).0.s && Gathers(k.s, u)
    ensures forall t :: t in k.s.tasks && IsRunning(k.s, t) ==>
      T(u, t).prio == if step.Unlock? && Releases(k, step.m) then T(k.s, t).base else T(k.s, t).prio
  {
    hide Inv, Blocks, Gathers, Releases, TaskCode, MutexLock, MutexUnlock, MutexLockReturn, ResumeTask, T;
    match step
    case Lock(m, timeout) => WaitsExactly(k, step); u := LockEffect(k, m, timeout); NothingGathers(k.s);
    case Unlock(m) => u := UnlockGathers(k, m);
    case LockReturn(m) => u := ReturnGathers(k, m);
    case Resume(t) => u := ResumeGathers(k, t);
    case _ => u := OrdinaryGathers(k, step);
  }

  lemma NothingGathers(s: Sched)
    ensures Gathers(s, s)
  {}

  lemma UnlockGathers(k: Kernel, m: nat) returns (u: Sched)
    requires Inv(k) && Enabled(k, Unlock(m))
    ensures u == MutexUnlock(k, m).0.s && Gathers(k.s, u)
    ensures forall t :: t in k.s.tasks && IsRunning(k.s, t) ==>
      T(u, t).prio == if Releases(k, m) then T(k.s, t).base else T(k.s, t).prio
  {
    hide Inv, Placed, TaskCode, MutexUnlock, Releases, T, R, W;
    SelfFacts(k);
    var w;
    u, w := UnlockEffect(k, m);
  }

  lemma ReturnGathers(k: Kernel, m: nat) returns (u: Sched)
    requires Inv(k) && Enabled(k, LockReturn(m))
    ensures u == MutexLockReturn(k, m).0.s && Gathers(k.s, u)
    ensures forall t :: t in k.s.tasks && IsRunning(k.s, t) ==> T(u, t).prio == T(k.s, t).prio
  {
    hide Inv, Placed, MutexLockReturn, T, R, W;
    SelfFacts(k);
    u := LockReturnEffect(k, m);
  }

  lemma ResumeGathers(k: Kernel, t: Tid) returns (u: Sched)
    requires t in k.s.tasks
    ensures u == ResumeTask(k.s, t) && Gathers(k.s, u)
    ensures forall t :: t in k.s.tasks && IsRunning(k.s, t) ==> T(u, t).prio == T(k.s, t).prio
  {
    hide ResumeTask, T, R, W;
    u := ResumeEffect(k.s, t);
  }

  lemma OrdinaryGathers(k: Kernel, step: Step) returns (u: Sched)
    requires Inv(k) && Enabled(k, step) && OnlyGathers(k, step) && NoMutex(step) && !Rearranges(step)
    ensures u == Next(k, step).0.s && Gathers(k.s, u)
    ensures forall t :: t in k.s.tasks && IsRunning(k.s, t) ==> T(u, t).prio == T(k.s, t).prio
  {
    hide Inv, Plain, PatientStay, SortedKept, Enabled, Next, Blocks, T, R;
    OrdinaryStep(k, step);
    WaitsExactly(k, step);
    u := Next(k, step).0.s;
  }

  // ---- any step --------------------------------------------------------------------------

  /** What a step can do to a task that is not the acting one. */
  predicate BystanderEffect(k: Kernel, step: Step, u: Sched, t: Tid) {
    var c, d := T(k.s, t), T(u, t);
    || d == c.(prio := d.prio)
    || (c.state == Blocked && Answered(k.s, u, t, Answer(step)))
    || (step == Switch && d == c.(state := d.state, link := d.link)
        && c.state != Blocked && c.state != Suspended && (d.state == Ready || d.state == Running))
    || (step == Suspend(t) && c.state == Ready && d == c.(state := Suspended, link := Off))
    || (step == Resume(t) && c.state == Suspended && d == c.(state := Ready, link := OnReady(c.prio)))
  }

  /** What a step can do to the acting task. */
  predicate ActorEffect(k: Kernel, step: Step, u: Sched, t: Tid, waits: bool) {
    var c, d := T(k.s, t), T(u, t);
    && c.state == Running
    && (d.state == Running || (d.state == Blocked && waits) || (d.state == Suspended && step == Suspend(t)))
    && (d.state != Blocked ==> d.call == c.call || d.call == NoCall)
    && (d.state == Suspended ==> d.call == c.call)
  }

  /** Every step, every task: the acting one, the others, and the new one. */
  ghost predicate StepEffect(k: Kernel, step: Step, u: Sched, waits: bool) {
    && k.s.tasks.Keys <= u.tasks.Keys
    && (step != SysTick ==> u.tick == k.s.tick)
    && (forall t :: t in k.s.tasks && Actor(k, step) != Some(t) ==> BystanderEffect(k, step, u, t))
    && (forall t :: t in k.s.tasks && Actor(k, step) == Some(t) ==> ActorEffect(k, step, u, t, waits))
    && (forall t :: t in u.tasks && t !in k.s.tasks ==> T(u, t).call == NoCall && T(u, t).state == Ready)
    && (step != Switch && !step.Suspend? ==> forall n :: R(k.s, n) <= R(u, n))
  }

  lemma OrdinaryEffect(k: Kernel, step: Step)
    requires Inv(k) && Enabled(k, step) && NoMutex(step) && !Rearranges(step)
    ensures StepEffect(k, step, Next(k, step).0.s, Next(k, step).1 == Waits)
  {
    hide Inv, Plain, PatientStay, SortedKept, Enabled, Next, T, R;
    OrdinaryStep(k, step);
    var u := Next(k, step).0.s;
    forall t | t in k.s.tasks && Actor(k, step) != Some(t) ensures BystanderEffect(k, step, u, t) {
      assert T(u, t) == T(k.s, t) ==> T(u, t) == T(k.s, t).(prio := T(u, t).prio);
    }
  }

  lemma MutexEffect(k: Kernel, step: Step)
    requires Inv(k) && Enabled(k, step) && !NoMutex(step)
    ensures StepEffect(k, step, Next(k, step).0.s, Next(k, step).1 == Waits)
  {
    hide Inv, Placed, TaskCode, MutexLock, MutexUnlock, MutexLockReturn, T, R, W;
    SelfFacts(k);
    match step
    case Lock(m, timeout) => var u := LockEffect(k, m, timeout);
    case Unlock(m) => var u, w := UnlockEffect(k, m);
    case LockReturn(m) => var u := LockReturnEffect(k, m);
  }

  lemma NotRunning(k: Kernel, t: Tid)
    requires Inv(k) && t in k.s.tasks && k.s.cur != Some(t)
    ensures T(k.s, t).state != Running
  {
    assert Placed(k.s, t);
  }

  lemma RearrangingEffect(k: Kernel, step: Step)
    requires Inv(k) && Enabled(k, step) && Rearranges(step)
    ensures StepEffect(k, step, Next(k, step).0.s, Next(k, step).1 == Waits)
  {
    hide Inv, Placed, TaskCode, CanDispatch, SelectNext, SuspendTask, ResumeTask, T, R, W;
    if step != Switch { SelfFacts(k); }
    match step
    case Switch => var u := SwitchEffect(k);
    case Suspend(t) => if t != Self(k) { NotRunning(k, t); } var u := SuspendEffect(k.s, t);
    case Resume(t) => var u := ResumeEffect(k.s, t);
  }

  /** The effect of any step on every task. */
  lemma EveryStep(k: Kernel, step: Step) returns (u: Sched)
    requires Inv(k) && Enabled(k, step)
    ensures u == Next(k, step).0.s && StepEffect(k, step, u, Next(k, step).1 == Waits)
  {
    hide Inv, StepEffect, Enabled, Next;
    u := Next(k, step).0.s;
    if !NoMutex(step) { MutexEffect(k, step); }
    else if Rearranges(step) { RearrangingEffect(k, step); }
    else { OrdinaryEffect(k, step); }
  }

  /** The same for one task: a new one, the acting one or another. */
  lemma AnyTask(k: Kernel, step: Step, t: Tid) returns (u: Sched)
    requires Inv(k) && Enabled(k, step) && t in Next(k, step).0.s.tasks
    ensures u == Next(k, step).0.s
    ensures if t !in k.s.tasks then T(u, t).call == NoCall && T(u, t).state == Ready
            else if Actor(k, step) == Some(t) then ActorEffect(k, step, u, t, Next(k, step).1 == Waits)
            else BystanderEffect(k, step, u, t)
  {
    hide Inv, Enabled, Next, BystanderEffect, ActorEffect, T, R;
    u := EveryStep(k, step);
  }

  lemma Bystander(k: Kernel, step: Step, t: Tid) returns (u: Sched)
    requires Inv(k) && Enabled(k, step) && t in k.s.tasks && Actor(k, step) != Some(t)
    ensures u == Next(k, step).0.s && t in u.tasks && BystanderEffect(k, step, u, t)
  {
    hide Inv, Enabled, Next, BystanderEffect, ActorEffect, T, R;
    u := EveryStep(k, step);
  }
}

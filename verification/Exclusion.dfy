/** Mutual exclusion and recursion: who can take a mutex from whom, and how many unlocks a holder owes. */
module Exclusion {
  import opened Base
  import opened Sequences
  import opened Scheduler
  import opened Membership
  import opened Kernel
  import opened Invariants

  /** The acting task takes one more level, or gives one back. */
  predicate Locks(k: Kernel, step: Step, t: Tid, m: nat) {
    step.Lock? && step.m == m && Self(k) == t
  }

  predicate Unlocks(k: Kernel, step: Step, t: Tid, m: nat) {
    step.Unlock? && step.m == m && Self(k) == t
  }

  lemma OtherStepsLeaveMutexes(k: Kernel, step: Step)
    requires Enabled(k, step) && !step.Lock? && !step.Unlock?
    ensures Next(k, step).0.mutexes == k.mutexes
  {
    if step.LockReturn? { hide Leave, Enter; } else { MutexesUntouched(k, step); }
  }

  /** What a lock does to a mutex. */
  lemma LockMoves(k: Kernel, i: nat, timeout: nat, m: nat)
    requires i in k.mutexes && m in k.mutexes
    ensures var a, b := k.mutexes[m], MutexLock(k, i, timeout).0.mutexes;
      && b.Keys == k.mutexes.Keys
      && b[m] == if i != m then a
                 else if a.owner == None then Mutex(Some(Self(k)), 1)
                 else if a.owner == Some(Self(k)) then a.(depth := (a.depth + 1) % U32)
                 else a
  {
    hide BlockOn, Boost;
  }

  /** What an unlock does to a mutex: the last one hands it to the head waiter, if there is one. */
  lemma UnlockMoves(k: Kernel, i: nat, m: nat)
    requires i in k.mutexes && m in k.mutexes
    ensures var a, b := k.mutexes[m], MutexUnlock(k, i).0.mutexes;
      var left, q := (a.depth + U32 - 1) % U32, W(k.s, MutexWaiters(m));
      && b.Keys == k.mutexes.Keys
      && b[m] == if i != m || a.owner != Some(Self(k)) then a
                 else if left > 0 then a.(depth := left)
                 else if q == [] then Mutex(None, 0) else Mutex(Some(q[0]), 1)
  {
    hide MakeReady, W;
    assert W(Restore(k.s, Self(k)), MutexWaiters(i)) == W(k.s, MutexWaiters(i)) by { RestoreKeepsLists(k.s, Self(k)); }
  }

  lemma RestoreKeepsLists(s: Sched, t: Tid)
    ensures forall w :: W(Restore(s, t), w) == W(s, w)
  {}

  /**
   * Mutual exclusion, step by step: an owner loses the mutex only by its own last unlock, and then to the head waiter
   * or to nobody; a free mutex is taken only by a task that locks it.
   */
  lemma OwnerMoves(k: Kernel, step: Step, m: nat)
    requires Inv(k) && Enabled(k, step) && m in k.mutexes
    ensures m in Next(k, step).0.mutexes
    ensures var a, b := k.mutexes[m], Next(k, step).0.mutexes[m]; b.owner != a.owner ==>
      match a.owner
      case Some(o) =>
        && Unlocks(k, step, o, m) && (a.depth + U32 - 1) % U32 == 0
        && var q := W(k.s, MutexWaiters(m)); b == if q == [] then Mutex(None, 0) else Mutex(Some(q[0]), 1)
      case None => Locks(k, step, Self(k), m) && b == Mutex(Some(Self(k)), 1)
  {
    hide Inv, MutexLock, MutexUnlock, TaskCode, Resumed, W;
    match step
    case Lock(i, timeout) => LockMoves(k, i, timeout, m);
    case Unlock(i) => UnlockMoves(k, i, m);
    case _ => hide Enabled, Next; OtherStepsLeaveMutexes(k, step);
  }

  /** Only the owner's own locks and unlocks move the depth. */
  lemma DepthMoves(k: Kernel, step: Step, t: Tid, m: nat)
    requires Enabled(k, step) && m in k.mutexes && k.mutexes[m].owner == Some(t) && 1 <= k.mutexes[m].depth < U32
    requires Locks(k, step, t, m) ==> k.mutexes[m].depth < U32 - 1
    requires Unlocks(k, step, t, m) ==> k.mutexes[m].depth > 1
    ensures m in Next(k, step).0.mutexes
    ensures var d := k.mutexes[m].depth;
      Next(k, step).0.mutexes[m]
        == Mutex(Some(t), if Locks(k, step, t, m) then d + 1 else if Unlocks(k, step, t, m) then d - 1 else d)
  {
    hide MutexLock, MutexUnlock, TaskCode, Resumed, W;
    match step
    case Lock(i, timeout) => LockMoves(k, i, timeout, m);
    case Unlock(i) => UnlockMoves(k, i, m);
    case _ => hide Enabled, Next; OtherStepsLeaveMutexes(k, step);
  }

  /** How deep `t` holds `m` at the end of the run, from depth `d`: one up per lock, one down per unlock. */
  function Level(k: Kernel, steps: seq<Step>, t: Tid, m: nat, d: int): int
    requires Legal(k, steps)
    decreases |steps|
  {
    if steps == [] then d
    else Level(Next(k, steps[0]).0, steps[1..], t, m,
               if Locks(k, steps[0], t, m) then d + 1 else if Unlocks(k, steps[0], t, m) then d - 1 else d)
  }

  /** The level stays positive, and below 2^32, all along the run. */
  predicate StaysLocked(k: Kernel, steps: seq<Step>, t: Tid, m: nat, d: int)
    requires Legal(k, steps)
    decreases |steps|
  {
    1 <= d < U32 && (steps != [] ==>
      StaysLocked(Next(k, steps[0]).0, steps[1..], t, m,
                  if Locks(k, steps[0], t, m) then d + 1 else if Unlocks(k, steps[0], t, m) then d - 1 else d))
  }

  /** A task that has unlocked less often than it locked still owns the mutex, whatever the others do. */
  lemma {:induction false} HeldUntilUnwound(k: Kernel, steps: seq<Step>, t: Tid, m: nat)
    requires Legal(k, steps) && m in k.mutexes && k.mutexes[m].owner == Some(t)
    requires StaysLocked(k, steps, t, m, k.mutexes[m].depth)
    ensures m in Run(k, steps).mutexes && Level(k, steps, t, m, k.mutexes[m].depth) >= 1
    ensures Run(k, steps).mutexes[m] == Mutex(Some(t), Level(k, steps, t, m, k.mutexes[m].depth))
    decreases |steps|
  {
    hide Enabled, Next;
    if steps != [] {
      var d := k.mutexes[m].depth;
      var u := Next(k, steps[0]).0;
      NextLevel(u, steps[1..], t, m,
                if Locks(k, steps[0], t, m) then d + 1 else if Unlocks(k, steps[0], t, m) then d - 1 else d);
      DepthMoves(k, steps[0], t, m);
      HeldUntilUnwound(u, steps[1..], t, m);
    }
  }

  lemma NextLevel(k: Kernel, steps: seq<Step>, t: Tid, m: nat, d: int)
    requires Legal(k, steps) && StaysLocked(k, steps, t, m, d)
    ensures 1 <= d < U32
  {}

  /** And the unlock that brings the level to zero is the one that lets it go. */
  lemma LastUnlockReleases(k: Kernel, steps: seq<Step>, t: Tid, m: nat)
    requires Inv(k) && Legal(k, steps) && m in k.mutexes && k.mutexes[m].owner == Some(t)
    requires StaysLocked(k, steps, t, m, k.mutexes[m].depth)
    requires Enabled(Run(k, steps), Unlock(m)) && Self(Run(k, steps)) == t
    ensures var u := Run(k, steps);
      && m in Next(u, Unlock(m)).0.mutexes
      && (Next(u, Unlock(m)).0.mutexes[m].owner != Some(t) <==> Level(k, steps, t, m, k.mutexes[m].depth) == 1)
  {
    hide Inv, Legal, StaysLocked, Level, Run, MutexUnlock, TaskCode, W;
    HeldUntilUnwound(k, steps, t, m);
    Reachable(k, steps);
    var u := Run(k, steps);
    UnlockMoves(u, m, m);
    HeadIsNotOwner(u, m, t);
    LevelRange(k, steps, t, m, k.mutexes[m].depth);
  }

  lemma HeadIsNotOwner(k: Kernel, m: nat, t: Tid)
    requires Inv(k) && TaskCode(k) && Self(k) == t
    ensures W(k.s, MutexWaiters(m)) != [] ==> W(k.s, MutexWaiters(m))[0] != t
  {
    SelfFacts(k);
    var q := W(k.s, MutexWaiters(m));
    if q != [] { assert q[0] in q; }
  }

  lemma {:induction false} LevelRange(k: Kernel, steps: seq<Step>, t: Tid, m: nat, d: int)
    requires Legal(k, steps) && StaysLocked(k, steps, t, m, d)
    ensures 1 <= Level(k, steps, t, m, d) < U32
    decreases |steps|
  {
    hide Enabled, Next, Locks, Unlocks;
    if steps != [] {
      var e := if Locks(k, steps[0], t, m) then d + 1 else if Unlocks(k, steps[0], t, m) then d - 1 else d;
      LevelRange(Next(k, steps[0]).0, steps[1..], t, m, e);
    }
  }

  /**
   * A lock says OK exactly when the caller then owns the mutex; an unlock is refused exactly to who does not own it.
   */
  lemma MutexAnswers(k: Kernel, m: nat, timeout: nat)
    requires Inv(k) && TaskCode(k) && m in k.mutexes
    ensures MutexLock(k, m, timeout).1 == Returns(OK) <==> Owns(MutexLock(k, m, timeout).0, Self(k), m)
    ensures MutexUnlock(k, m).1 == Returns(NotOwner) <==> !Owns(k, Self(k), m)
    ensures MutexUnlock(k, m).1 == Returns(NotOwner) ==> MutexUnlock(k, m).0 == k
  {
    hide Inv, BlockOn, Boost, WakeWaiter, Restore;
  }

  /** A call that may wait, made with no wait. */
  predicate WithoutWait(step: Step) {
    (step.Lock? || step.Take? || step.Send? || step.Receive?) && step.timeout == NO_WAIT
  }

  /** What a call is told that cannot be served and may not wait. */
  function RefusalOf(step: Step): Status {
    match step
    case Send(_, _, _) => Full
    case Receive(_, _) => Empty
    case _ => Timeout
  }

  /** With no wait a call never blocks its caller; one that is not served is told why, and changes nothing at all. */
  lemma NoWaitNeverBlocks(k: Kernel, step: Step)
    requires Inv(k) && Enabled(k, step) && WithoutWait(step)
    ensures Next(k, step).1 != Waits
    ensures Next(k, step).1 == Returns(OK) || Next(k, step).1.Got? || Next(k, step) == (k, Returns(RefusalOf(step)))
    ensures var u := Next(k, step).0.s; T(u, Self(k)) == T(k.s, Self(k)) && u.cur == k.s.cur
  {
    hide Inv, TaskCode, BlockOn, Boost, WakeWaiter, T, W, CopyIn, CopyOut;
    match step
    case Send(q, _, _) => WakeLeavesCaller(k, Receivers(q));
    case Receive(q, _) => WakeLeavesCaller(k, Senders(q));
    case _ =>
  }

  lemma WakeLeavesCaller(k: Kernel, w: WaitList)
    requires Inv(k) && TaskCode(k)
    ensures T(WakeWaiter(k.s, w).0, Self(k)) == T(k.s, Self(k)) && WakeWaiter(k.s, w).0.cur == k.s.cur
  {
    hide Inv, Linked, AllPlaced, Placed, TaskCode, MakeReady, T, R, W, Without;
    SelfFacts(k);
    MutexesOfInv(k);
    if W(k.s, w) != [] {
      WaiterIsBlocked(k.s, w);
      var u := MakeReadyFrame(k.s, W(k.s, w)[0], OK);
    }
  }
}

/**
 * How an ordinary step changes the scheduler: every step except a switch, a suspend, a resume
 * and the mutex steps. Stated once, and used by every theorem about runs.
 */
module Evolution {
  import opened Base
  import opened Sequences
  import opened Scheduler
  import opened Membership
  import opened Ticking

  /** The task was woken with answer `r`: off both lists, on the ready list of its priority. */
  predicate Answered(s: Sched, u: Sched, t: Tid, r: Status) {
    T(u, t) == T(s, t).(state := Ready, link := OnReady(T(s, t).prio), event := None,
                        result := r, answers := T(s, t).answers + 1)
  }

  /** Tasks other than the acting one stay as they are, or are blocked and get their one answer. */
  ghost predicate TasksEvolve(s: Sched, u: Sched, actor: Option<Tid>, r: Status) {
    && s.tasks.Keys <= u.tasks.Keys && u.cur == s.cur && (r == OK ==> u.tick == s.tick)
    && (forall t :: t in s.tasks && actor != Some(t) ==>
          T(u, t) == T(s, t) || (T(s, t).state == Blocked && Answered(s, u, t, r)))
    && (forall t :: t in u.tasks && t !in s.tasks ==>
          T(u, t).state == Ready && T(u, t).prio == T(u, t).base && T(u, t).call == NoCall
          && T(u, t).link == OnReady(T(u, t).prio))
  }

  /** The acting task keeps its priority; if it blocks, its call waits and no stale bit is left at its level. */
  ghost predicate ActorEvolves(s: Sched, u: Sched, actor: Option<Tid>, waits: bool) {
    actor.Some? ==>
      var a := actor.value;
      && a in s.tasks && T(s, a).state == Running && T(u, a).prio == T(s, a).prio && T(u, a).base == T(s, a).base
      && (T(u, a).state == Running || (T(u, a).state == Blocked && waits))
      && (T(u, a).state == Running ==> T(u, a).call == T(s, a).call || T(u, a).call == NoCall)
      && (T(u, a).state == Blocked && R(u, T(s, a).prio) == [] ==> T(s, a).prio !in u.bits)
  }

  /** Ready lists grow at the tail; a bit is set for a new member and cleared over an empty list. */
  ghost predicate ListsEvolve(s: Sched, u: Sched, actor: Option<Tid>) {
    && (forall n :: R(s, n) <= R(u, n))
    && (forall n :: n in u.bits && n !in s.bits ==> R(u, n) != [])
    && (forall n :: n in s.bits && n !in u.bits ==>
          actor.Some? && T(u, actor.value).state == Blocked && n == T(s, actor.value).prio && R(u, n) == [])
  }

  /** A task that waits for a mutex without a timeout is left alone. */
  ghost predicate PatientStay(s: Sched, u: Sched) {
    forall t ::
      t in s.tasks && T(s, t).state == Blocked && T(s, t).call.Locking? && !Timed(T(s, t).call) ==> T(u, t) == T(s, t)
  }

  /** `a` is woken before `b`: higher priority, or the same and waiting for longer. */
  predicate Before(s: Sched, a: Tid, b: Tid) {
    T(s, a).prio > T(s, b).prio || (T(s, a).prio == T(s, b).prio && T(s, a).arrived < T(s, b).arrived)
  }

  ghost predicate SortedBy(s: Sched, q: seq<Tid>) {
    forall i, j :: 0 <= i < j < |q| ==> Before(s, q[i], q[j])
  }

  /** Every wait list is sorted by priority, and by arrival among equals. */
  ghost predicate WaitsSorted(s: Sched) {
    && (forall w :: SortedBy(s, W(s, w)))
    && (forall w, t {:trigger t in W(s, w)} :: t in W(s, w) ==> T(s, t).arrived < s.arrivals)
  }

  ghost predicate SortedKept(s: Sched, u: Sched) { WaitsSorted(s) ==> WaitsSorted(u) }

  ghost predicate Evolves(s: Sched, u: Sched, actor: Option<Tid>, r: Status, waits: bool) {
    && TasksEvolve(s, u, actor, r) && ActorEvolves(s, u, actor, waits) && ListsEvolve(s, u, actor)
    && PatientStay(s, u) && SortedKept(s, u)
  }

  // ---- sorted lists ----------------------------------------------------------------------

  lemma SortedSame(s: Sched, u: Sched, q: seq<Tid>)
    requires SortedBy(s, q)
    requires forall t :: t in q ==> T(u, t).prio == T(s, t).prio && T(u, t).arrived == T(s, t).arrived
    ensures SortedBy(u, q)
  {
    hide T;
  }

  lemma SortedWithout(s: Sched, q: seq<Tid>, t: Tid)
    requires SortedBy(s, q)
    ensures SortedBy(s, Without(q, t))
  {
    hide T, Before;
    if t in q { WithoutKeepsOrder(q, t); }
  }

  lemma {:induction false} SortedRemaining(s: Sched, q: seq<Tid>, gone: set<Tid>)
    requires SortedBy(s, q)
    ensures SortedBy(s, Remaining(q, gone))
  {
    hide T, Before;
    if q != [] {
      var rest := Remaining(q[1..], gone);
      SortedRemaining(s, q[1..], gone);
      assert forall x :: x in rest ==> x in q[1..];
      assert forall x :: x in q[1..] ==> Before(s, q[0], x);
      assert forall i :: 0 <= i < |rest| ==> rest[i] in rest;
    }
  }

  /** Putting an element where it belongs keeps a list sorted. */
  lemma SortedAt(u: Sched, q: seq<Tid>, k: nat, t: Tid)
    requires SortedBy(u, q) && k <= |q|
    requires (forall j :: 0 <= j < k ==> Before(u, q[j], t)) && (forall j :: k <= j < |q| ==> Before(u, t, q[j]))
    ensures SortedBy(u, InsertAt(q, k, t))
  {
    hide Before;
    var r := InsertAt(q, k, t);
    forall i, j | 0 <= i < j < |r| ensures Before(u, r[i], r[j]) {
      assert r[i] == if i < k then q[i] else if i == k then t else q[i - 1];
      assert r[j] == if j < k then q[j] else if j == k then t else q[j - 1];
    }
  }

  /** The insertion loop keeps the list sorted: the newcomer goes behind all who arrived before it at its priority. */
  lemma SortedInsert(s: Sched, u: Sched, q: seq<Tid>, t: Tid)
    requires SortedBy(s, q) && t !in q
    requires forall x :: x in q ==> T(u, x).prio == T(s, x).prio && T(u, x).arrived == T(s, x).arrived < T(u, t).arrived
    requires T(u, t).prio == T(s, t).prio
    ensures SortedBy(u, InsertWaiter(s, q, t))
  {
    hide T, SortedBy;
    var k := FirstBelow(Keys(s, q), T(s, t).prio);
    SortedSame(s, u, q);
    forall j | 0 <= j < k ensures Before(u, q[j], t) { assert q[j] in q; }
    forall j | k <= j < |q| ensures Before(u, t, q[j]) {
      assert q[j] in q && q[k] in q;
      SortedPair(s, q, k, j);
    }
    SortedAt(u, q, k, t);
  }

  lemma SortedPair(s: Sched, q: seq<Tid>, i: nat, j: nat)
    requires SortedBy(s, q) && i <= j < |q|
    ensures T(s, q[i]).prio >= T(s, q[j]).prio
  {}

  lemma SortedWhenSame(s: Sched, u: Sched)
    requires forall w :: W(u, w) == W(s, w)
    requires u.arrivals == s.arrivals
    requires forall w, t {:trigger t in W(s, w)} ::
      t in W(s, w) ==> T(u, t).prio == T(s, t).prio && T(u, t).arrived == T(s, t).arrived
    ensures SortedKept(s, u)
  {
    hide T, W, SortedBy;
    if WaitsSorted(s) {
      forall w { SortedSame(s, u, W(s, w)); }
    }
  }

  // ---- the operations --------------------------------------------------------------------

  lemma NothingEvolves(s: Sched, actor: Option<Tid>, r: Status, waits: bool)
    requires actor.Some? ==> actor.value in s.tasks && T(s, actor.value).state == Running
    ensures Evolves(s, s, actor, r, waits)
  {}

  lemma WakeSorted(s: Sched, w: WaitList)
    requires Linked(s) && AllPlaced(s)
    ensures SortedKept(s, WakeWaiter(s, w).0)
  {
    hide Linked, AllPlaced, MakeReady, SortedBy, T, R, W, Without;
    if W(s, w) != [] && WaitsSorted(s) {
      WaiterIsBlocked(s, w);
      var t := W(s, w)[0];
      var u := MakeReadyFrame(s, t, OK);
      SortedWithout(s, W(s, w), t);
      forall v ensures SortedBy(u, W(u, v)) { SortedSame(s, u, W(u, v)); }
    }
  }

  lemma WakeEvolves(s: Sched, w: WaitList, actor: Option<Tid>)
    requires Linked(s) && AllPlaced(s) && !w.MutexWaiters?
    requires actor.Some? ==> actor.value in s.tasks && T(s, actor.value).state == Running
    ensures Evolves(s, WakeWaiter(s, w).0, actor, OK, false)
  {
    hide Linked, AllPlaced, MakeReady, SortedKept, T, R, W, Without;
    WakeSorted(s, w);
    if W(s, w) != [] {
      WaiterIsBlocked(s, w);
      var u := MakeReadyFrame(s, W(s, w)[0], OK);
    }
  }

  lemma TickEvolves(s: Sched)
    requires Linked(s) && AllPlaced(s)
    ensures Evolves(s, Tick(s), None, Timeout, false)
  {
    hide Linked, AllPlaced, Tick, Advanced, Due, DueAt, Remaining, SortedBy, T, R, W;
    var u, due := TickFrame(s);
    DelayedIsBlocked(s);
    if WaitsSorted(s) {
      forall w ensures SortedBy(u, W(u, w)) {
        SortedRemaining(s, W(s, w), due);
        SortedSame(s, u, W(u, w));
      }
    }
  }

  lemma BlockSorted(s: Sched, t: Tid, call: Call)
    requires Linked(s) && t in s.tasks && T(s, t).link == Off && T(s, t).event == None && InKernel(call)
    ensures SortedKept(s, BlockOn(s, t, call))
  {
    NotWaiting(s, t);
    hide Linked, BlockOn, SortedBy, NoDup, T, R, W, InsertWaiter;
    var u := BlockOnFrame(s, t, call);
    if WaitsSorted(s) {
      forall w ensures SortedBy(u, W(u, w)) && forall x :: x in W(u, w) ==> T(u, x).arrived < u.arrivals {
        if WaitsOn(call) == Some(w) { SortedInsert(s, u, W(s, w), t); InsertUnique(s, W(s, w), t); }
        else { SortedSame(s, u, W(s, w)); }
      }
    }
  }

  lemma NotWaiting(s: Sched, t: Tid)
    requires Linked(s) && t in s.tasks && T(s, t).event == None
    ensures forall w :: t !in W(s, w) && NoDup(W(s, w))
  {}

  lemma BlockEvolves(s: Sched, t: Tid, call: Call, r: Status)
    requires Linked(s) && t in s.tasks && T(s, t).state == Running && Placed(s, t) && InKernel(call)
    ensures Evolves(s, BlockOn(s, t, call), Some(t), r, true)
  {
    hide Linked, BlockOn, SortedKept, T, R, W, InsertWaiter;
    BlockSorted(s, t, call);
    var u := BlockOnFrame(s, t, call);
  }

  lemma LeaveEvolves(s: Sched, t: Tid, r: Status)
    requires t in s.tasks && T(s, t).event == None && T(s, t).state == Running
    ensures Evolves(s, Leave(s, t), Some(t), r, false)
  {
    hide Leave, SortedKept, T, R, W;
    var u := LeaveFrame(s, t);
    SortedWhenSame(s, u);
  }

  lemma CreateEvolves(s: Sched, t: Tid, prio: nat, actor: Option<Tid>, r: Status)
    requires Linked(s) && t !in s.tasks
    requires actor.Some? ==> actor.value in s.tasks && T(s, actor.value).state == Running
    ensures Evolves(s, CreateTask(s, t, prio), actor, r, false)
  {
    NewIsNotWaiting(s, t);
    hide Linked, SortedKept, AddReady, SetT, T, R, W;
    var v := SetTFrame(s, t, Tcb(prio, prio, Ready, Off, None, 0, OK, NoCall, 0, 0));
    var u := AddReadyFrame(v, t);
    SortedWhenSame(s, u);
  }

  lemma NewIsNotWaiting(s: Sched, t: Tid)
    requires Linked(s) && t !in s.tasks
    ensures forall w :: t !in W(s, w)
  {}
}

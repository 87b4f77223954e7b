/** nimble_scheduler_tick, whose scan unlinks nodes of the list it walks: exactly the due tasks wake. */
module Ticking {
  import opened Base
  import opened Sequences
  import opened Scheduler
  import opened Membership

  /** `q` without the tasks in `gone`, in order. */
  function Remaining(q: seq<Tid>, gone: set<Tid>): (r: seq<Tid>)
    ensures forall x :: x in r <==> x in q && x !in gone
  {
    if q == [] then []
    else (if q[0] in gone then [] else [q[0]]) + Remaining(q[1..], gone)
  }

  /** The due tasks of `q` whose priority is `n`, in list order. */
  function DueAt(s: Sched, q: seq<Tid>, n: nat): (r: seq<Tid>)
    ensures forall x :: x in r <==> x in q && Due(s, x) && T(s, x).prio == n
  {
    if q == [] then []
    else (if Due(s, q[0]) && T(s, q[0]).prio == n then [q[0]] else []) + DueAt(s, q[1..], n)
  }

  function DueSet(s: Sched, q: seq<Tid>): set<Tid> { set t | t in q && Due(s, t) }

  function TimedOut(c: Tcb): Tcb {
    c.(state := Ready, link := OnReady(c.prio), event := None, result := Timeout, answers := c.answers + 1)
  }

  lemma {:induction false} RemainingNone(q: seq<Tid>)
    ensures Remaining(q, {}) == q
  {
    if q != [] { RemainingNone(q[1..]); }
  }

  lemma {:induction false} RemainingSplit(q: seq<Tid>, t: Tid, gone: set<Tid>)
    requires NoDup(q)
    ensures Remaining(Without(q, t), gone) == Remaining(q, gone + {t})
  {
    hide Without;
    if q == [] {
      assert Without(q, t) == q;
    } else {
      WithoutStep(q, t);
      if q[0] == t { RemainingAbsent(q[1..], t, gone); }
      else {
        RemainingSplit(q[1..], t, gone);
        assert ([q[0]] + Without(q[1..], t))[1..] == Without(q[1..], t);
      }
    }
  }

  lemma {:induction false} RemainingAbsent(q: seq<Tid>, t: Tid, gone: set<Tid>)
    requires t !in q
    ensures Remaining(q, gone + {t}) == Remaining(q, gone)
  {
    if q != [] { RemainingAbsent(q[1..], t, gone); }
  }

  lemma {:induction false} DueAtFrame(s: Sched, u: Sched, q: seq<Tid>, n: nat)
    requires u.tick == s.tick && forall x :: x in q ==> T(u, x) == T(s, x)
    ensures DueAt(u, q, n) == DueAt(s, q, n)
  {
    if q != [] { DueAtFrame(s, u, q[1..], n); }
  }

  /** One node of the scan, and what it leaves to the rest. */
  lemma HeadStep(s: Sched, q: seq<Tid>) returns (v: Sched)
    requires Scanning(s, q) && q != []
    ensures v == ExpireHead(s, q[0]) && Scanning(v, q[1..])
    ensures v.tick == s.tick && v.cur == s.cur && v.arrivals == s.arrivals && v.tasks.Keys == s.tasks.Keys
    ensures T(v, q[0]) == if Due(s, q[0]) then TimedOut(T(s, q[0])) else T(s, q[0])
    ensures forall x :: x != q[0] ==> T(v, x) == T(s, x) && Due(v, x) == Due(s, x)
    ensures DueSet(s, q) == if Due(s, q[0]) then DueSet(v, q[1..]) + {q[0]} else DueSet(v, q[1..])
    ensures ExpireAll(s, q) == ExpireAll(v, q[1..])
    ensures q[0] !in q[1..] && q[0] in s.delayed && NoDup(s.delayed)
    ensures forall n :: R(v, n) == if Due(s, q[0]) && n == T(s, q[0]).prio then R(s, n) + [q[0]] else R(s, n)
    ensures v.bits == if Due(s, q[0]) then s.bits + {T(s, q[0]).prio} else s.bits
    ensures forall w :: NoDup(W(s, w)) && W(v, w) == if Due(s, q[0]) then Without(W(s, w), q[0]) else W(s, w)
    ensures v.delayed == if Due(s, q[0]) then Without(s.delayed, q[0]) else s.delayed
  {
    hide Linked, AllPlaced, MakeReady, ExpireHead, R, W, Without, NoDup;
    v := ExpireHeadFrame(s, q);
    if Due(s, q[0]) { v := MakeReadyFrame(s, q[0], Timeout); }
    ListsOf(s, q[0]);
    forall w ensures W(v, w) == if Due(s, q[0]) then Without(W(s, w), q[0]) else W(s, w) {
      if q[0] !in W(s, w) { WithoutNone(W(s, w), q[0]); }
    }
  }

  lemma ListsOf(s: Sched, t: Tid)
    requires Linked(s)
    ensures NoDup(s.delayed) && forall w :: NoDup(W(s, w)) && (t in W(s, w) ==> T(s, t).event == Some(w))
  {}

  lemma WithoutNone(q: seq<Tid>, t: Tid)
    requires t !in q
    ensures Without(q, t) == q
  {}

  lemma {:induction false} ExpireTasks(s: Sched, q: seq<Tid>)
    requires Scanning(s, q)
    ensures var u := ExpireAll(s, q);
      && u.tick == s.tick && u.cur == s.cur && u.arrivals == s.arrivals && u.tasks.Keys == s.tasks.Keys
      && forall x :: T(u, x) == if x in DueSet(s, q) then TimedOut(T(s, x)) else T(s, x)
    decreases |q|
  {
    if q != [] {
      hide Scanning, ExpireHead, ExpireAll, Due, T, R, W;
      var v := HeadStep(s, q);
      ExpireTasks(v, q[1..]);
    }
  }

  lemma {:induction false} ExpireReady(s: Sched, q: seq<Tid>, n: nat)
    requires Scanning(s, q)
    ensures R(ExpireAll(s, q), n) == R(s, n) + DueAt(s, q, n)
    ensures n in ExpireAll(s, q).bits <==> n in s.bits || DueAt(s, q, n) != []
    decreases |q|
  {
    if q != [] {
      var due := Due(s, q[0]) && T(s, q[0]).prio == n;
      var rest := DueAt(s, q[1..], n);
      assert DueAt(s, q, n) == if due then [q[0]] + rest else rest;
      hide Scanning, ExpireHead, ExpireAll, Due, T, R, W, DueSet, DueAt;
      var v := HeadStep(s, q);
      var was, now, end := R(s, n), R(v, n), R(ExpireAll(v, q[1..]), n);
      assert now == if due then was + [q[0]] else was;
      ExpireReady(v, q[1..], n);
      DueAtFrame(s, v, q[1..], n);
      assert end == now + rest;
      Regroup(was, q[0], rest);
    }
  }

  lemma Regroup(a: seq<Tid>, x: Tid, b: seq<Tid>)
    ensures a + [x] + b == a + ([x] + b)
  {}

  lemma {:induction false} ExpireWaits(s: Sched, q: seq<Tid>, w: WaitList)
    requires Scanning(s, q)
    ensures W(ExpireAll(s, q), w) == Remaining(W(s, w), DueSet(s, q))
    decreases |q|
  {
    if q == [] {
      assert DueSet(s, q) == {};
      RemainingNone(W(s, w));
    } else {
      hide Scanning, ExpireHead, ExpireAll, Due, T, R, W, DueSet, Remaining, Without, NoDup;
      var v := HeadStep(s, q);
      ExpireWaits(v, q[1..], w);
      if Due(s, q[0]) { RemainingSplit(W(s, w), q[0], DueSet(v, q[1..])); }
    }
  }

  lemma {:induction false} ExpireDelayed(s: Sched, q: seq<Tid>)
    requires Scanning(s, q)
    ensures ExpireAll(s, q).delayed == Remaining(s.delayed, DueSet(s, q))
    decreases |q|
  {
    if q == [] {
      assert DueSet(s, q) == {};
      RemainingNone(s.delayed);
    } else {
      hide Scanning, ExpireHead, ExpireAll, Due, T, R, W, DueSet, Remaining, Without, NoDup;
      var v := HeadStep(s, q);
      ExpireDelayed(v, q[1..]);
      if Due(s, q[0]) { RemainingSplit(s.delayed, q[0], DueSet(v, q[1..])); }
    }
  }

  /** One tick wakes every due task and no other, each list keeps the order of the rest. */
  lemma TickFrame(s: Sched) returns (u: Sched, due: set<Tid>)
    requires Linked(s) && AllPlaced(s)
    ensures u == Tick(s) && due == set t | t in s.delayed && Due(Advanced(s), t)
    ensures u.tick == (s.tick + 1) % U32 && u.cur == s.cur && u.arrivals == s.arrivals && u.tasks.Keys == s.tasks.Keys
    ensures forall x :: T(u, x) == if x in due then TimedOut(T(s, x)) else T(s, x)
    ensures forall n :: R(u, n) == R(s, n) + DueAt(Advanced(s), s.delayed, n)
    ensures forall n :: n in u.bits <==> n in s.bits || DueAt(Advanced(s), s.delayed, n) != []
    ensures forall w :: W(u, w) == Remaining(W(s, w), due)
    ensures u.delayed == Remaining(s.delayed, due)
  {
    var a := Advanced(s);
    AdvanceKeeps(s);
    assert Scanning(a, s.delayed);
    assert (forall x :: T(a, x) == T(s, x)) && (forall n :: R(a, n) == R(s, n)) && (forall w :: W(a, w) == W(s, w));
    hide Linked, AllPlaced, Scanning, T, R, W;
    u, due := Tick(s), DueSet(a, s.delayed);
    ExpireTasks(a, s.delayed);
    forall n { ExpireReady(a, s.delayed, n); }
    forall w { ExpireWaits(a, s.delayed, w); }
    ExpireDelayed(a, s.delayed);
  }
}

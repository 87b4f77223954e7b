/** Time slicing: how long a READY task can wait for its turn, and in which order its peers take theirs. */
module RoundRobin {
  import opened Base
  import opened Sequences
  import opened Scheduler
  import opened Membership
  import opened Evolution
  import opened Kernel
  import opened Invariants
  import opened Effects

  function Switches(steps: seq<Step>): nat {
    if steps == [] then 0 else (if steps[0] == Switch then 1 else 0) + Switches(steps[1..])
  }

  // ---- positions -------------------------------------------------------------------------

  lemma {:induction false} IndexInPrefix(p: seq<Tid>, q: seq<Tid>, t: Tid)
    requires p <= q && t in p
    ensures t in q && IndexOf(q, t) == IndexOf(p, t)
  {
    if p[0] != t {
      assert p[1..] <= q[1..];
      IndexInPrefix(p[1..], q[1..], t);
    }
  }

  lemma {:induction false} IndexWithout(q: seq<Tid>, x: Tid, t: Tid)
    requires t in q && x != t
    ensures t in Without(q, x) && IndexOf(Without(q, x), t) <= IndexOf(q, t)
  {
    hide Without;
    WithoutStep(q, x);
    if q[0] != x && q[0] != t {
      IndexWithout(q[1..], x, t);
      assert ([q[0]] + Without(q[1..], x))[1..] == Without(q[1..], x);
    }
  }

  /** Ready lists only grow at the tail, except in a switch or a suspend. */
  lemma ReadyGrows(k: Kernel, step: Step, n: nat)
    requires Inv(k) && Enabled(k, step) && step != Switch && !step.Suspend?
    ensures R(k.s, n) <= R(Next(k, step).0.s, n)
  {
    hide Inv, Enabled, Next, BystanderEffect, ActorEffect, T, R;
    var u := EveryStep(k, step);
  }

  lemma SwitchAdvances(k: Kernel, t: Tid, n: nat)
    requires Inv(k) && CanDispatch(k.s) && TopLevel(Requeued(k.s)) <= n
    requires t in R(k.s, n) && t in R(SelectNext(k.s), n)
    ensures IndexOf(R(SelectNext(k.s), n), t) < IndexOf(R(k.s, n), t)
  {
    hide Inv, Linked, AllPlaced, CanDispatch, SelectNext, Chosen, TopLevel, Requeued, T, R, W, IndexOf;
    MutexesOfInv(k);
    CurrentExists(k.s);
    var s := k.s;
    var v, u := SelectNextFrame(s);
    v := RequeuedFrame(s);
    RequeuedLinked(s);
    TopOfMembers(v);
    assert R(s, n) <= R(v, n);
    assert t in R(v, n) && TopLevel(v) == n;
    IndexInPrefix(R(s, n), R(v, n), t);
    UniqueLists(v);
    IndexInTail(R(v, n), t);
  }

  lemma TopOfMembers(s: Sched)
    requires Linked(s)
    ensures forall n: nat, t {:trigger t in R(s, n)} :: t in R(s, n) ==> n <= TopLevel(s)
  {}

  lemma UniqueLists(s: Sched)
    requires Linked(s)
    ensures forall n :: NoDup(R(s, n))
  {}

  lemma IndexInTail(q: seq<Tid>, t: Tid)
    requires NoDup(q) && q != [] && t in q[1..]
    ensures IndexOf(q[1..], t) == IndexOf(q, t) - 1
  {
    assert q[0] != t;
  }

  lemma SuspendAdvances(k: Kernel, x: Tid, t: Tid, n: nat)
    requires Inv(k) && x in k.s.tasks && t in R(k.s, n) && t in R(SuspendTask(k.s, x), n)
    ensures IndexOf(R(SuspendTask(k.s, x), n), t) <= IndexOf(R(k.s, n), t)
  {
    hide Inv, Linked, AllPlaced, SuspendTask, T, R, W, IndexOf, NoDup, Without;
    MutexesOfInv(k);
    UniqueLists(k.s);
    var u := SuspendEffect(k.s, x);
    WithoutNoDup(R(k.s, n), x);
    if x != t { IndexWithout(R(k.s, n), x, t); }
  }

  /** A task that stays on its list only moves forward, and by at least one place in a switch. */
  lemma NextAdvances(k: Kernel, step: Step, t: Tid, n: nat)
    requires Inv(k) && Enabled(k, step) && (step == Switch ==> TopLevel(Requeued(k.s)) <= n)
    requires t in R(k.s, n) && t in R(Next(k, step).0.s, n)
    ensures IndexOf(R(Next(k, step).0.s, n), t) <= IndexOf(R(k.s, n), t) - Switches([step])
  {
    hide Inv, R, T, IndexOf, SelectNext, SuspendTask, CanDispatch, TopLevel, Requeued, Enabled, Next;
    assert [step][1..] == [];
    if step == Switch { SwitchIsNext(k); SwitchAdvances(k, t, n); }
    else if step.Suspend? { SuspendIsNext(k, step.t); SuspendAdvances(k, step.t, t, n); }
    else {
      ReadyGrows(k, step, n);
      IndexInPrefix(R(k.s, n), R(Next(k, step).0.s, n), t);
    }
  }

  lemma SwitchIsNext(k: Kernel)
    requires Enabled(k, Switch)
    ensures CanDispatch(k.s) && Next(k, Switch).0 == k.(s := SelectNext(k.s))
  {}

  lemma SuspendIsNext(k: Kernel, t: Tid)
    requires Enabled(k, Suspend(t))
    ensures t in k.s.tasks && Next(k, Suspend(t)).0 == k.(s := SuspendTask(k.s, t))
  {}

  /** `t` stays on list `n`, and no switch of the run finds work at a higher level. */
  predicate QueuedThroughout(k: Kernel, steps: seq<Step>, t: Tid, n: nat)
    requires Legal(k, steps)
    decreases |steps|
  {
    t in R(k.s, n) && (steps != [] ==>
      && (steps[0] == Switch ==> TopLevel(Requeued(k.s)) <= n)
      && QueuedThroughout(Next(k, steps[0]).0, steps[1..], t, n))
  }

  /** A task at position i of the top list waits for at most i switches: the next one is its own. */
  lemma {:induction false} WaitsAtMostItsPosition(k: Kernel, steps: seq<Step>, t: Tid, n: nat)
    requires Inv(k) && Legal(k, steps) && QueuedThroughout(k, steps, t, n)
    ensures Switches(steps) <= IndexOf(R(k.s, n), t)
    decreases |steps|
  {
    if steps != [] {
      hide Inv, R, IndexOf, Enabled, Next, TopLevel, Requeued, CanDispatch;
      var u := Next(k, steps[0]).0;
      StillQueued(u, steps[1..], t, n);
      NextAdvances(k, steps[0], t, n);
      NextKeeps(k, steps[0]);
      WaitsAtMostItsPosition(u, steps[1..], t, n);
      assert [steps[0]][1..] == [];
    }
  }

  lemma StillQueued(k: Kernel, steps: seq<Step>, t: Tid, n: nat)
    requires Legal(k, steps) && QueuedThroughout(k, steps, t, n)
    ensures t in R(k.s, n)
  {}

  // ---- the cycle -------------------------------------------------------------------------

  /** The running task and its peers, in the order they will run. */
  function Rota(s: Sched, n: nat): seq<Tid>
    requires s.cur.Some?
  {
    [s.cur.value] + R(s, n)
  }

  function Rotate(q: seq<Tid>, j: nat): (r: seq<Tid>)
    ensures |r| == |q|
    decreases j
  {
    if q == [] || j == 0 then q else Rotate(q[1..] + [q[0]], j - 1)
  }

  lemma {:induction false} RotateAt(q: seq<Tid>, j: nat, i: nat)
    requires i < |q|
    ensures Rotate(q, j)[i] == q[(i + j) % |q|]
    decreases j
  {
    if j > 0 {
      var p := q[1..] + [q[0]];
      RotateAt(p, j - 1, i);
      var a := (i + (j - 1)) % |q|;
      assert p[a] == if a + 1 < |q| then q[a + 1] else q[0];
      ModStep(i + (j - 1), |q|);
    }
  }

  lemma ModStep(x: nat, n: nat)
    requires n > 0
    ensures (x + 1) % n == if x % n + 1 < n then x % n + 1 else 0
  {
    var d := x / n;
    assert x == d * n + x % n;
    if x % n + 1 < n {
      ModIs(x + 1, d, x % n + 1, n);
    } else {
      assert (d + 1) * n == d * n + n;
      ModIs(x + 1, d + 1, 0, n);
    }
  }

  lemma ModIs(x: int, d: int, r: int, n: nat)
    requires n > 0 && x == d * n + r && 0 <= r < n
    ensures x % n == r
  {
    var e := x / n - d;
    assert x == (x / n) * n + x % n;
    assert e * n == (x / n) * n - d * n;
    Multiples(e, n);
  }

  lemma Multiples(e: int, n: nat)
    ensures e > 0 ==> e * n >= n
    ensures e < 0 ==> e * n <= 0 - n
  {}

  /** Only the peers of level `n` compete: the running task is one, and nothing else changes their ring. */
  predicate PeersOnly(k: Kernel, steps: seq<Step>, n: nat)
    requires Legal(k, steps)
    decreases |steps|
  {
    && k.s.cur.Some? && IsRunning(k.s, k.s.cur.value) && T(k.s, k.s.cur.value).prio == n
    && (steps != [] ==>
          && (steps[0] == Switch ==> TopLevel(Requeued(k.s)) <= n)
          && (steps[0] != Switch ==> Next(k, steps[0]).0.s.cur == k.s.cur && R(Next(k, steps[0]).0.s, n) == R(k.s, n))
          && PeersOnly(Next(k, steps[0]).0, steps[1..], n))
  }

  lemma SwitchRotates(k: Kernel, n: nat)
    requires Inv(k) && CanDispatch(k.s) && TopLevel(Requeued(k.s)) <= n
    requires k.s.cur.Some? && IsRunning(k.s, k.s.cur.value) && T(k.s, k.s.cur.value).prio == n
    ensures SelectNext(k.s).cur.Some? && Rota(SelectNext(k.s), n) == Rotate(Rota(k.s, n), 1)
  {
    hide Inv, Linked, AllPlaced, CanDispatch, SelectNext, TopLevel, Requeued, T, R, W;
    MutexesOfInv(k);
    CurrentExists(k.s);
    var v, u := SelectNextFrame(k.s);
    v := RequeuedFrame(k.s);
    RequeuedLinked(k.s);
    TopOfMembers(v);
    var c := k.s.cur.value;
    assert c in R(v, n) && TopLevel(v) == n;
    assert Rota(k.s, n)[1..] + [c] == R(v, n);
    assert Rotate(R(v, n), 0) == R(v, n);
    assert Rota(u, n) == R(v, n);
  }

  lemma {:induction false} RotateTwice(q: seq<Tid>, i: nat, j: nat)
    ensures Rotate(Rotate(q, i), j) == Rotate(q, i + j)
    decreases i
  {
    if i > 0 && q != [] { RotateTwice(q[1..] + [q[0]], i - 1, j); }
  }

  lemma RotateNone(q: seq<Tid>)
    ensures Rotate(q, 0) == q
  {}

  lemma {:induction false} RingRotates(k: Kernel, steps: seq<Step>, n: nat)
    requires Inv(k) && Legal(k, steps) && PeersOnly(k, steps, n)
    ensures Run(k, steps).s.cur.Some? && Rota(Run(k, steps).s, n) == Rotate(Rota(k.s, n), Switches(steps))
    decreases |steps|
  {
    hide Inv, R, Enabled, Next, TopLevel, Requeued, CanDispatch, SelectNext, T, Rotate;
    if steps == [] {
      RotateNone(Rota(k.s, n));
    } else {
      var u := Next(k, steps[0]).0;
      NextKeeps(k, steps[0]);
      RingRotates(u, steps[1..], n);
      if steps[0] == Switch {
        SwitchIsNext(k);
        SwitchRotates(k, n);
        RotateTwice(Rota(k.s, n), 1, Switches(steps[1..]));
      }
    }
  }

  /** Round robin: the j-th switch from now goes to the task j places on, so with p peers each runs every p-th time. */
  lemma PeersTakeTurns(k: Kernel, steps: seq<Step>, n: nat)
    requires Inv(k) && Legal(k, steps) && PeersOnly(k, steps, n)
    ensures var peers, u := Rota(k.s, n), Run(k, steps).s;
      && u.cur == Some(peers[Switches(steps) % |peers|])
      && (Switches(steps) == |peers| ==> Rota(u, n) == peers)
  {
    hide Inv, R, Rotate, Enabled, Next, CanDispatch, TopLevel, Requeued, T;
    RingRotates(k, steps, n);
    var peers := Rota(k.s, n);
    RotateAt(peers, Switches(steps), 0);
    if Switches(steps) == |peers| { FullCircle(peers); }
  }

  lemma FullCircle(q: seq<Tid>)
    ensures Rotate(q, |q|) == q
  {
    hide Rotate;
    forall i | 0 <= i < |q| ensures Rotate(q, |q|)[i] == q[i] {
      RotateAt(q, |q|, i);
      ModIs(i + |q|, 1, i, |q|);
    }
  }
}

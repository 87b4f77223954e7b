/** Which lists a task can be on, and that every scheduler operation keeps it so. */
module Membership {
  import opened Base
  import opened Sequences
  import opened Scheduler
  import Bitmap

  /** `link` nodes and ready lists agree, and a non-empty list has its bit set. */
  ghost predicate ReadyLinked(s: Sched) {
    && (forall n, t {:trigger t in R(s, n)} :: t in R(s, n) ==> t in s.tasks && T(s, t).link == OnReady(n))
    && (forall t :: t in s.tasks && T(s, t).link.OnReady? ==> t in R(s, T(s, t).link.level))
    && (forall n :: R(s, n) != [] ==> n in s.bits)
  }

  ghost predicate DelayLinked(s: Sched) {
    && (forall t :: t in s.delayed ==> t in s.tasks && T(s, t).link == OnDelayed)
    && (forall t :: t in s.tasks && T(s, t).link == OnDelayed ==> t in s.delayed)
  }

  ghost predicate WaitLinked(s: Sched) {
    && (forall w, t {:trigger t in W(s, w)} :: t in W(s, w) ==> t in s.tasks && T(s, t).event == Some(w))
    && (forall t :: t in s.tasks && T(s, t).event.Some? ==> t in W(s, T(s, t).event.value))
  }

  ghost predicate InRange(s: Sched) {
    && (forall n :: n in s.bits ==> n < MAX_PRIORITIES)
    && (forall t :: t in s.tasks ==> T(s, t).prio < MAX_PRIORITIES && T(s, t).base < MAX_PRIORITIES)
    && (s.cur.Some? ==> s.cur.value in s.tasks)
    && s.tick < U32
  }

  /** No node is on a list twice. */
  ghost predicate Unique(s: Sched) {
    && (forall n :: NoDup(R(s, n)))
    && (forall w :: NoDup(W(s, w)))
    && NoDup(s.delayed)
  }

  ghost predicate Linked(s: Sched) {
    ReadyLinked(s) && DelayLinked(s) && WaitLinked(s) && Unique(s) && InRange(s)
  }

  /** A task's state, its two nodes and its place in its kernel call agree. */
  predicate Placed(s: Sched, t: Tid) {
    var c := T(s, t);
    && (c.state == Ready <==> c.link.OnReady?)
    && (c.state == Running ==> s.cur == Some(t) && c.link == Off)
    && (c.state == Blocked ==> InKernel(c.call) && c.answers == 0 && c.event == WaitsOn(c.call))
    && (c.state == Blocked ==> (c.link == OnDelayed <==> Timed(c.call)))
    && (c.state != Blocked ==> c.event == None && c.link != OnDelayed)
    && (c.state != Blocked && InKernel(c.call) ==> c.answers == 1)
    && (c.state != Blocked && InKernel(c.call) ==> c.result == OK || (c.result == Timeout && Timed(c.call)))
    && (c.state != Blocked && c.call.Delaying? ==> c.result == Timeout)
  }

  ghost predicate AllPlaced(s: Sched) {
    forall t :: t in s.tasks ==> Placed(s, t)
  }

  // ---- one operation at a time -----------------------------------------------------------

  lemma UnlinkEventFrame(s: Sched, t: Tid) returns (u: Sched)
    ensures u == UnlinkEvent(s, t) == s.(tasks := u.tasks, waits := u.waits)
    ensures t in s.tasks ==> u.tasks.Keys == s.tasks.Keys && T(u, t) == T(s, t).(event := None)
    ensures forall x :: x != t ==> T(u, x) == T(s, x)
    ensures forall n :: R(u, n) == R(s, n)
    ensures forall w :: W(u, w) == if T(s, t).event == Some(w) then Without(W(s, w), t) else W(s, w)
  {
    u := UnlinkEvent(s, t);
  }

  lemma UnlinkFrame(s: Sched, t: Tid) returns (u: Sched)
    ensures u == Unlink(s, t) == s.(tasks := u.tasks, ready := u.ready, delayed := u.delayed)
    ensures t in s.tasks ==> u.tasks.Keys == s.tasks.Keys && T(u, t) == T(s, t).(link := Off)
    ensures forall x :: x != t ==> T(u, x) == T(s, x)
    ensures forall n :: R(u, n) == if T(s, t).link == OnReady(n) then Without(R(s, n), t) else R(s, n)
    ensures forall w :: W(u, w) == W(s, w)
    ensures u.delayed == if T(s, t).link == OnDelayed then Without(s.delayed, t) else s.delayed
  {
    u := Unlink(s, t);
  }

  lemma RemoveFrame(s: Sched, t: Tid) returns (u: Sched)
    ensures u == Remove(s, t) == Unlink(s, t).(bits := u.bits)
    ensures t in s.tasks ==> u.tasks.Keys == s.tasks.Keys && T(u, t) == T(s, t).(link := Off)
    ensures forall x :: x != t ==> T(u, x) == T(s, x)
    ensures forall n :: R(u, n) == if T(s, t).link == OnReady(n) then Without(R(s, n), t) else R(s, n)
    ensures forall w :: W(u, w) == W(s, w)
    ensures u.delayed == if T(s, t).link == OnDelayed then Without(s.delayed, t) else s.delayed
    ensures u.bits == if R(u, T(s, t).prio) == [] then s.bits - {T(s, t).prio} else s.bits
    ensures u.tick == s.tick && u.cur == s.cur && u.arrivals == s.arrivals
  {
    u := UnlinkFrame(s, t);
    assert forall x :: T(Remove(s, t), x) == T(u, x);
    assert forall n :: R(Remove(s, t), n) == R(u, n);
    assert forall w :: W(Remove(s, t), w) == W(u, w);
    u := Remove(s, t);
  }

  lemma AddReadyFrame(s: Sched, t: Tid) returns (u: Sched)
    requires t in s.tasks
    ensures u == AddReady(s, t) == s.(tasks := u.tasks, ready := u.ready, bits := s.bits + {T(s, t).prio})
    ensures u.tasks.Keys == s.tasks.Keys && T(u, t) == T(s, t).(state := Ready, link := OnReady(T(s, t).prio))
    ensures forall x :: x != t ==> T(u, x) == T(s, x)
    ensures forall n :: R(u, n) == if n == T(s, t).prio then R(s, n) + [t] else R(s, n)
    ensures forall w :: W(u, w) == W(s, w)
  {
    u := AddReady(s, t);
  }

  lemma SetTFrame(s: Sched, t: Tid, c: Tcb) returns (u: Sched)
    ensures u == SetT(s, t, c) == s.(tasks := s.tasks[t := c])
    ensures T(u, t) == c && u.tasks.Keys == s.tasks.Keys + {t}
    ensures forall x :: x != t ==> T(u, x) == T(s, x)
    ensures forall n :: R(u, n) == R(s, n)
    ensures forall w :: W(u, w) == W(s, w)
  {
    u := SetT(s, t, c);
  }

  lemma EnqueueFrame(s: Sched, w: WaitList, t: Tid) returns (u: Sched)
    ensures u == EnqueueWaiter(s, w, t) == s.(tasks := u.tasks, waits := u.waits, arrivals := s.arrivals + 1)
    ensures T(u, t) == T(s, t).(event := Some(w), arrived := s.arrivals) && u.tasks.Keys == s.tasks.Keys + {t}
    ensures forall x :: x != t ==> T(u, x) == T(s, x)
    ensures forall n :: R(u, n) == R(s, n)
    ensures forall v :: W(u, v) == if v == w then InsertWaiter(s, W(s, w), t) else W(s, v)
  {
    u := EnqueueWaiter(s, w, t);
  }

  // ---- Linked, one list operation at a time ----------------------------------------------

  lemma UnlinkEventLinked(s: Sched, t: Tid)
    requires Linked(s) && t in s.tasks
    ensures Linked(UnlinkEvent(s, t))
  {
    hide UnlinkEvent, NoDup, T, R, W, Without;
    var u := UnlinkEventFrame(s, t);
    if T(s, t).event.Some? { WithoutNoDup(W(s, T(s, t).event.value), t); }
    assert ReadyLinked(u) && DelayLinked(u) by { hide WaitLinked; }
    assert WaitLinked(u) by { hide ReadyLinked, DelayLinked; }
  }

  lemma UnlinkLinked(s: Sched, t: Tid)
    requires Linked(s) && t in s.tasks
    ensures Linked(Unlink(s, t))
  {
    hide Unlink, NoDup, T, R, W, Without;
    var u := UnlinkFrame(s, t);
    WithoutNoDup(s.delayed, t);
    if T(s, t).link.OnReady? { WithoutNoDup(R(s, T(s, t).link.level), t); }
    assert ReadyLinked(u) by { hide WaitLinked, DelayLinked; }
    assert DelayLinked(u) by { hide WaitLinked, ReadyLinked; }
    assert WaitLinked(u) by { hide ReadyLinked, DelayLinked; }
  }

  lemma ClearBitLinked(s: Sched, p: nat)
    requires Linked(s) && R(s, p) == []
    ensures Linked(s.(bits := s.bits - {p}))
  {
    hide NoDup;
    var u := s.(bits := s.bits - {p});
    assert forall x :: T(u, x) == T(s, x);
    assert forall n :: R(u, n) == R(s, n);
    assert forall w :: W(u, w) == W(s, w);
    hide T, R, W;
    assert ReadyLinked(u) by { hide WaitLinked, DelayLinked; }
    assert DelayLinked(u) by { hide WaitLinked, ReadyLinked; }
    assert WaitLinked(u) by { hide ReadyLinked, DelayLinked; }
  }

  lemma RemoveLinked(s: Sched, t: Tid)
    requires Linked(s) && t in s.tasks
    ensures Linked(Remove(s, t))
  {
    hide Linked, Unlink, R;
    UnlinkLinked(s, t);
    if R(Unlink(s, t), T(s, t).prio) == [] { ClearBitLinked(Unlink(s, t), T(s, t).prio); }
  }

  lemma AddReadyLinked(s: Sched, t: Tid)
    requires Linked(s) && t in s.tasks && T(s, t).link == Off
    ensures Linked(AddReady(s, t))
  {
    hide AddReady, NoDup, T, R, W;
    var u := AddReadyFrame(s, t);
    AppendNoDup(R(s, T(s, t).prio), t);
    assert ReadyLinked(u) by { hide WaitLinked, DelayLinked; }
    assert DelayLinked(u) by { hide WaitLinked, ReadyLinked; }
    assert WaitLinked(u) by { hide ReadyLinked, DelayLinked; }
  }

  /** Fields other than the two nodes do not matter to the lists. */
  lemma FieldsLinked(s: Sched, t: Tid, c: Tcb)
    requires Linked(s) && t in s.tasks && c.link == T(s, t).link && c.event == T(s, t).event
    requires c.prio < MAX_PRIORITIES && c.base < MAX_PRIORITIES
    ensures Linked(SetT(s, t, c))
  {
    hide NoDup, T, R, W, SetT;
    var u := SetTFrame(s, t, c);
    assert ReadyLinked(u) by { hide WaitLinked, DelayLinked; }
    assert DelayLinked(u) by { hide WaitLinked, ReadyLinked; }
    assert WaitLinked(u) by { hide ReadyLinked, DelayLinked; }
  }

  lemma InsertUnique(s: Sched, q: seq<Tid>, t: Tid)
    requires NoDup(q) && t !in q
    ensures NoDup(InsertWaiter(s, q, t))
    ensures forall x :: x in InsertWaiter(s, q, t) <==> x == t || x in q
  {
    hide FirstBelow, Keys;
    var i := FirstBelow(Keys(s, q), T(s, t).prio);
    InsertNoDup(q, i, t);
    assert InsertAt(q, i, t)[i] == t;
  }

  lemma EnqueueLinked(s: Sched, w: WaitList, t: Tid)
    requires Linked(s) && t in s.tasks && T(s, t).event == None
    ensures Linked(EnqueueWaiter(s, w, t))
  {
    hide NoDup, T, R, W, EnqueueWaiter, InsertWaiter;
    var u := EnqueueFrame(s, w, t);
    assert t !in W(s, w);
    InsertUnique(s, W(s, w), t);
    assert ReadyLinked(u) && DelayLinked(u) by { hide WaitLinked; }
    assert WaitLinked(u) by { hide ReadyLinked, DelayLinked; }
  }

  lemma BlockCurrentDelayFrame(s: Sched, t: Tid, wake: nat) returns (u: Sched)
    requires t in s.tasks && T(s, t).link == Off
    ensures u == BlockCurrentDelay(s, t, wake)
    ensures u.tick == s.tick && u.cur == s.cur && u.arrivals == s.arrivals && u.tasks.Keys == s.tasks.Keys
    ensures T(u, t) == T(s, t).(wake := wake, state := Blocked, link := OnDelayed)
    ensures forall x :: x != t ==> T(u, x) == T(s, x)
    ensures forall n :: R(u, n) == R(s, n)
    ensures forall w :: W(u, w) == W(s, w)
    ensures u.bits == if R(s, T(s, t).prio) == [] then s.bits - {T(s, t).prio} else s.bits
    ensures u.delayed == s.delayed + [t]
  {
    hide Remove;
    var v := RemoveFrame(s, t);
    var c := T(v, t).(wake := wake, state := Blocked, link := OnDelayed);
    var v2 := SetTFrame(v, t, c);
    u := v2.(delayed := v.delayed + [t]);
    assert forall n :: R(u, n) == R(v2, n) == R(s, n);
    assert forall w :: W(u, w) == W(v2, w) == W(s, w);
    assert forall x :: T(u, x) == T(v2, x);
  }

  lemma BlockCurrentDelayLinked(s: Sched, t: Tid, wake: nat)
    requires Linked(s) && t in s.tasks && T(s, t).link == Off
    ensures Linked(BlockCurrentDelay(s, t, wake))
  {
    hide BlockCurrentDelay, NoDup, T, R, W;
    var u := BlockCurrentDelayFrame(s, t, wake);
    AppendNoDup(s.delayed, t);
    assert ReadyLinked(u) by { hide WaitLinked, DelayLinked; }
    assert DelayLinked(u) by { hide WaitLinked, ReadyLinked; }
    assert WaitLinked(u) by { hide ReadyLinked, DelayLinked; }
  }

  lemma PrioInRange(s: Sched, t: Tid)
    requires Linked(s) && t in s.tasks
    ensures T(s, t).prio < MAX_PRIORITIES && T(s, t).base < MAX_PRIORITIES
  {}

  lemma DelayedIsBlocked(s: Sched)
    requires Linked(s) && AllPlaced(s)
    ensures forall t :: t in s.delayed ==> t in s.tasks && T(s, t).state == Blocked && T(s, t).link == OnDelayed
                                           && InKernel(T(s, t).call) && Timed(T(s, t).call) && T(s, t).answers == 0
  {
    forall t | t in s.delayed ensures t in s.tasks && T(s, t).link == OnDelayed && Placed(s, t) {}
  }

  lemma WaiterIsBlocked(s: Sched, w: WaitList)
    requires Linked(s) && AllPlaced(s)
    ensures forall t :: t in W(s, w) ==> t in s.tasks && T(s, t).state == Blocked && T(s, t).event == Some(w)
                                         && !T(s, t).link.OnReady? && WaitsOn(T(s, t).call) == Some(w)
                                             && T(s, t).answers == 0
  {
    forall t | t in W(s, w) ensures t in s.tasks && T(s, t).event == Some(w) && Placed(s, t) {}
  }

  lemma OffIfRunning(s: Sched)
    requires AllPlaced(s)
    ensures forall t :: t in s.tasks && T(s, t).state == Running ==> T(s, t).link == Off && s.cur == Some(t)
    ensures forall t :: t in s.tasks ==> (T(s, t).state == Ready <==> T(s, t).link.OnReady?)
  {
    forall t | t in s.tasks ensures Placed(s, t) {}
  }

  /** Members of ready lists have their bit set, and bits are levels. */
  lemma BitsOf(s: Sched)
    requires Linked(s)
    ensures forall n :: n in s.bits ==> n < MAX_PRIORITIES
    ensures forall t :: t in s.tasks && T(s, t).link.OnReady? ==>
      t in R(s, T(s, t).link.level) && T(s, t).link.level in s.bits
    ensures forall n, t {:trigger t in R(s, n)} :: t in R(s, n) ==> t in s.tasks && T(s, t).link == OnReady(n)
  {}

  lemma TopOfBits(s: Sched, l: nat)
    requires l in s.bits && forall n :: n in s.bits ==> n < MAX_PRIORITIES
    ensures TopLevel(s) in s.bits && forall n :: n in s.bits ==> n <= TopLevel(s)
  {}

  // ---- whole operations ------------------------------------------------------------------

  /** What waking a blocked task does, and all it does. */
  lemma MakeReadyFrame(s: Sched, t: Tid, answer: Status) returns (u: Sched)
    requires t in s.tasks && !T(s, t).link.OnReady?
    ensures u == MakeReady(s, t, answer)
    ensures u.tick == s.tick && u.cur == s.cur && u.arrivals == s.arrivals && u.tasks.Keys == s.tasks.Keys
    ensures T(u, t) == T(s, t).(state := Ready, link := OnReady(T(s, t).prio), event := None,
                                result := answer, answers := T(s, t).answers + 1)
    ensures forall x :: x != t ==> T(u, x) == T(s, x)
    ensures u.bits == s.bits + {T(s, t).prio}
    ensures forall n :: R(u, n) == if n == T(s, t).prio then R(s, n) + [t] else R(s, n)
    ensures u.delayed == if T(s, t).link == OnDelayed then Without(s.delayed, t) else s.delayed
    ensures forall w :: W(u, w) == if T(s, t).event == Some(w) then Without(W(s, w), t) else W(s, w)
  {
    hide Unlink, UnlinkEvent, AddReady, SetT, T, R, W, Without;
    var v1 := UnlinkEventFrame(s, t);
    var v2 := UnlinkFrame(v1, t);
    var v3 := SetTFrame(v2, t, T(v2, t).(result := answer, answers := T(v2, t).answers + 1));
    u := AddReadyFrame(v3, t);
  }

  lemma MakeReadyLinked(s: Sched, t: Tid, answer: Status)
    requires Linked(s) && t in s.tasks && !T(s, t).link.OnReady?
    ensures Linked(MakeReady(s, t, answer))
  {
    hide Unlink, UnlinkEvent, AddReady, SetT, T, Linked;
    var v1 := UnlinkEventFrame(s, t);
    UnlinkEventLinked(s, t);
    var v2 := UnlinkFrame(v1, t);
    UnlinkLinked(v1, t);
    var c := T(v2, t).(result := answer, answers := T(v2, t).answers + 1);
    var v3 := SetTFrame(v2, t, c);
    PrioInRange(v2, t);
    FieldsLinked(v2, t, c);
    AddReadyLinked(v3, t);
  }

  lemma MakeReadyPlaced(s: Sched, t: Tid, answer: Status)
    requires AllPlaced(s) && t in s.tasks && T(s, t).state == Blocked
    requires (answer == OK && !T(s, t).call.Delaying?) || (answer == Timeout && T(s, t).link == OnDelayed)
    ensures AllPlaced(MakeReady(s, t, answer))
  {
    hide MakeReady, T, R, W, Without;
    assert Placed(s, t);
    var u := MakeReadyFrame(s, t, answer);
    forall x | x in u.tasks ensures Placed(u, x) { assert x in s.tasks && Placed(s, x); }
  }

  lemma BlockOnFrame(s: Sched, t: Tid, call: Call) returns (u: Sched)
    requires t in s.tasks && T(s, t).link == Off && T(s, t).event == None && InKernel(call)
    ensures u == BlockOn(s, t, call)
    ensures u.tick == s.tick && u.cur == s.cur && u.tasks.Keys == s.tasks.Keys
    ensures u.arrivals == if WaitsOn(call).Some? then s.arrivals + 1 else s.arrivals
    ensures T(u, t) == T(s, t).(state := Blocked, link := if Timed(call) then OnDelayed else Off,
                                event := WaitsOn(call),
                                wake := if Timed(call) then (s.tick + Ticks(call)) % U32 else T(s, t).wake,
                                call := call, answers := 0,
                                arrived := if WaitsOn(call).Some? then s.arrivals else T(s, t).arrived)
    ensures forall x :: x != t ==> T(u, x) == T(s, x)
    ensures forall n :: R(u, n) == R(s, n)
    ensures forall w :: W(u, w) == if WaitsOn(call) == Some(w) then InsertWaiter(s, W(s, w), t) else W(s, w)
    ensures u.bits == if R(s, T(s, t).prio) == [] then s.bits - {T(s, t).prio} else s.bits
    ensures u.delayed == if Timed(call) then s.delayed + [t] else s.delayed
  {
    hide Remove, EnqueueWaiter, BlockCurrentDelay, SetT, T, R, W, InsertWaiter;
    var v1 := s;
    if WaitsOn(call).Some? { v1 := EnqueueFrame(s, WaitsOn(call).value, t); }
    if Timed(call) {
      var v2 := BlockCurrentDelayFrame(v1, t, (s.tick + Ticks(call)) % U32);
      u := SetTFrame(v2, t, T(v2, t).(call := call, answers := 0));
    } else {
      var v2 := RemoveFrame(v1, t);
      var v3 := SetTFrame(v2, t, T(v2, t).(state := Blocked));
      u := SetTFrame(v3, t, T(v3, t).(call := call, answers := 0));
    }
  }

  lemma BlockOnLinked(s: Sched, t: Tid, call: Call)
    requires Linked(s) && t in s.tasks && T(s, t).link == Off && T(s, t).event == None && InKernel(call)
    ensures Linked(BlockOn(s, t, call))
  {
    hide Remove, EnqueueWaiter, BlockCurrentDelay, SetT, T, Linked;
    PrioInRange(s, t);
    var v1 := s;
    if WaitsOn(call).Some? { v1 := EnqueueFrame(s, WaitsOn(call).value, t); EnqueueLinked(s, WaitsOn(call).value, t); }
    if Timed(call) {
      var v2 := BlockCurrentDelayFrame(v1, t, (s.tick + Ticks(call)) % U32);
      BlockCurrentDelayLinked(v1, t, (s.tick + Ticks(call)) % U32);
      FieldsLinked(v2, t, T(v2, t).(call := call, answers := 0));
    } else {
      var v2 := RemoveFrame(v1, t);
      RemoveLinked(v1, t);
      var v3 := SetTFrame(v2, t, T(v2, t).(state := Blocked));
      FieldsLinked(v2, t, T(v2, t).(state := Blocked));
      FieldsLinked(v3, t, T(v3, t).(call := call, answers := 0));
    }
  }

  lemma BlockOnPlaced(s: Sched, t: Tid, call: Call)
    requires AllPlaced(s) && t in s.tasks && T(s, t).state == Running && InKernel(call)
    ensures AllPlaced(BlockOn(s, t, call))
  {
    hide BlockOn, T, R, W;
    assert Placed(s, t);
    var u := BlockOnFrame(s, t, call);
    forall x | x in u.tasks ensures Placed(u, x) { assert x in s.tasks && Placed(s, x); }
  }

  lemma RequeuedFrame(s: Sched) returns (u: Sched)
    requires s.cur.Some? ==> s.cur.value in s.tasks
    ensures u == Requeued(s)
    ensures u.tick == s.tick && u.cur == s.cur && u.arrivals == s.arrivals && u.tasks.Keys == s.tasks.Keys
    ensures u.delayed == s.delayed && u.waits == s.waits && forall w :: W(u, w) == W(s, w)
    ensures forall x ::
      T(u, x) == if IsRunning(s, x) then T(s, x).(state := Ready, link := OnReady(T(s, x).prio)) else T(s, x)
    ensures forall n :: R(u, n) == if s.cur.Some? && IsRunning(s, s.cur.value) && n == T(s, s.cur.value).prio
                                   then R(s, n) + [s.cur.value] else R(s, n)
    ensures u.bits == if s.cur.Some? && IsRunning(s, s.cur.value) then s.bits + {T(s, s.cur.value).prio} else s.bits
  {
    u := s;
    if s.cur.Some? && T(s, s.cur.value).state == Running { u := AddReadyFrame(s, s.cur.value); }
  }

  lemma RequeuedLinked(s: Sched)
    requires Linked(s) && AllPlaced(s)
    ensures Linked(Requeued(s)) && AllPlaced(Requeued(s))
    ensures forall x :: x in s.tasks ==> T(Requeued(s), x).state != Running
  {
    hide AddReady, T, R, W;
    assert forall x :: x in s.tasks && Placed(s, x) && s.cur != Some(x) ==> T(s, x).state != Running;
    if s.cur.Some? && T(s, s.cur.value).state == Running {
      assert Placed(s, s.cur.value);
      AddReadyLinked(s, s.cur.value);
      var u := AddReadyFrame(s, s.cur.value);
      forall x | x in u.tasks ensures Placed(u, x) { assert x in s.tasks && Placed(s, x); }
    }
  }

  lemma SelectNextFrame(s: Sched) returns (v: Sched, u: Sched)
    requires Linked(s) && AllPlaced(s) && CanDispatch(s)
    ensures v == Requeued(s) && u == SelectNext(s) && v.tasks.Keys == s.tasks.Keys && v.cur == s.cur
    ensures u.tick == s.tick && u.cur == Some(Chosen(s)) && u.arrivals == s.arrivals && u.tasks.Keys == s.tasks.Keys
    ensures Chosen(s) in s.tasks && T(v, Chosen(s)).link == OnReady(TopLevel(v)) && T(v, Chosen(s)).state == Ready
    ensures T(u, Chosen(s)) == T(v, Chosen(s)).(state := Running, link := Off)
    ensures forall x :: x != Chosen(s) ==> T(u, x) == T(v, x)
    ensures forall n :: R(u, n) == if n == TopLevel(v) then R(v, n)[1..] else R(v, n)
    ensures forall w :: W(u, w) == W(v, w)
    ensures u.delayed == v.delayed
    ensures u.bits == if R(u, T(v, Chosen(s)).prio) == [] then v.bits - {T(v, Chosen(s)).prio} else v.bits
  {
    hide Requeued, Remove, SetT, T, R, W, NoDup;
    v := RequeuedFrame(s);
    RequeuedLinked(s);
    var t := Chosen(s);
    assert t in R(v, TopLevel(v));
    assert Placed(v, t);
    var v1 := RemoveFrame(v, t);
    WithoutHead(R(v, TopLevel(v)));
    var v2 := SetTFrame(v1, t, T(v1, t).(state := Running));
    u := SelectNext(s);
    assert u == v2.(cur := Some(t));
    CurFrame(v2, Some(t));
  }

  lemma CurFrame(s: Sched, c: Option<Tid>)
    ensures forall x :: T(s.(cur := c), x) == T(s, x)
    ensures forall n :: R(s.(cur := c), n) == R(s, n)
    ensures forall w :: W(s.(cur := c), w) == W(s, w)
  {}

  lemma CurLinked(s: Sched, t: Tid)
    requires Linked(s) && t in s.tasks
    ensures Linked(s.(cur := Some(t)))
  {
    var u := s.(cur := Some(t));
    CurFrame(s, Some(t));
    hide NoDup, T, R, W;
    assert ReadyLinked(u) by { hide WaitLinked, DelayLinked; }
    assert DelayLinked(u) by { hide WaitLinked, ReadyLinked; }
    assert WaitLinked(u) by { hide ReadyLinked, DelayLinked; }
  }

  lemma SelectNextLinked(s: Sched)
    requires Linked(s) && AllPlaced(s) && CanDispatch(s)
    ensures Linked(SelectNext(s))
  {
    var v, u := SelectNextFrame(s);
    var t := Chosen(s);
    RequeuedLinked(s);
    RemoveLinked(v, t);
    var v1 := RemoveFrame(v, t);
    hide Requeued, Remove, SetT, T, R, W, Linked;
    PrioInRange(v1, t);
    FieldsLinked(v1, t, T(v1, t).(state := Running));
    var v2 := SetTFrame(v1, t, T(v1, t).(state := Running));
    CurLinked(v2, t);
  }

  lemma SelectNextPlaced(s: Sched)
    requires Linked(s) && AllPlaced(s) && CanDispatch(s)
    ensures AllPlaced(SelectNext(s))
  {
    hide SelectNext, Requeued, Linked, T, R, W;
    RequeuedLinked(s);
    var v, u := SelectNextFrame(s);
    forall x | x in u.tasks ensures Placed(u, x) {
      assert x in s.tasks && x in v.tasks && Placed(v, x) && Placed(s, x);
    }
  }

  /** Where the scan of the delayed list stands: `q` is what is left of it. */
  ghost predicate Scanning(s: Sched, q: seq<Tid>) {
    Linked(s) && AllPlaced(s) && NoDup(q) && forall t :: t in q ==> t in s.delayed
  }

  lemma ExpireHeadFrame(s: Sched, q: seq<Tid>) returns (u: Sched)
    requires Scanning(s, q) && q != []
    ensures u == ExpireHead(s, q[0]) && Scanning(u, q[1..])
    ensures q[0] in s.tasks && T(s, q[0]).link == OnDelayed && T(s, q[0]).answers == 0 && q[0] !in q[1..]
    ensures u == if Due(s, q[0]) then MakeReady(s, q[0], Timeout) else s
  {
    hide Linked, AllPlaced, MakeReady, Due, T, R, W, Without, NoDup;
    var t := q[0];
    u := s;
    TailNoDup(q);
    DelayedIsBlocked(s);
    if Due(s, t) {
      MakeReadyLinked(s, t, Timeout);
      MakeReadyPlaced(s, t, Timeout);
      u := MakeReadyFrame(s, t, Timeout);
    }
  }

  lemma TailNoDup(q: seq<Tid>)
    requires NoDup(q) && q != []
    ensures NoDup(q[1..]) && q[0] !in q[1..] && forall t :: t in q[1..] ==> t in q
  {}

  lemma {:induction false} ExpireAllKeeps(s: Sched, q: seq<Tid>)
    requires Scanning(s, q)
    ensures Linked(ExpireAll(s, q)) && AllPlaced(ExpireAll(s, q))
    decreases |q|
  {
    if q != [] {
      var u := ExpireHeadFrame(s, q);
      hide Linked, AllPlaced, ExpireHead;
      ExpireAllKeeps(u, q[1..]);
    }
  }

  /** The clock of a state is not part of its lists. */
  lemma AdvanceKeeps(s: Sched)
    requires Linked(s) && AllPlaced(s)
    ensures Linked(Advanced(s)) && AllPlaced(Advanced(s))
  {
    var u := Advanced(s);
    assert forall x :: T(u, x) == T(s, x);
    assert forall n :: R(u, n) == R(s, n);
    assert forall w :: W(u, w) == W(s, w);
    hide NoDup, T, R, W;
    assert ReadyLinked(u) by { hide WaitLinked, DelayLinked; }
    assert DelayLinked(u) by { hide WaitLinked, ReadyLinked; }
    assert WaitLinked(u) by { hide ReadyLinked, DelayLinked; }
    forall x | x in u.tasks ensures Placed(u, x) { assert Placed(s, x); }
  }

  lemma TickKeeps(s: Sched)
    requires Linked(s) && AllPlaced(s)
    ensures Linked(Tick(s)) && AllPlaced(Tick(s))
  {
    AdvanceKeeps(s);
    assert NoDup(s.delayed);
    hide AllPlaced, Linked, NoDup;
    ExpireAllKeeps(Advanced(s), s.delayed);
  }

  /** A new control block is on no list. */
  lemma NewTaskLinked(s: Sched, t: Tid, c: Tcb)
    requires Linked(s) && t !in s.tasks && c.link == Off && c.event == None && c.prio < MAX_PRIORITIES
    requires c.base < MAX_PRIORITIES
    ensures Linked(SetT(s, t, c))
  {
    hide NoDup, T, R, W, SetT;
    var v := SetTFrame(s, t, c);
    assert ReadyLinked(v) by { hide WaitLinked, DelayLinked; }
    assert DelayLinked(v) by { hide WaitLinked, ReadyLinked; }
    assert WaitLinked(v) by { hide ReadyLinked, DelayLinked; }
  }

  lemma CreateTaskKeeps(s: Sched, t: Tid, prio: nat)
    requires Linked(s) && AllPlaced(s) && t !in s.tasks && prio < MAX_PRIORITIES
    ensures Linked(CreateTask(s, t, prio)) && AllPlaced(CreateTask(s, t, prio))
  {
    hide T, R, W, Linked, AddReady, SetT;
    var c := Tcb(prio, prio, Ready, Off, None, 0, OK, NoCall, 0, 0);
    var v := SetTFrame(s, t, c);
    NewTaskLinked(s, t, c);
    AddReadyLinked(v, t);
    var u := AddReadyFrame(v, t);
    forall x | x in u.tasks ensures Placed(u, x) { assert x == t || Placed(s, x); }
  }

  lemma ResumeTaskKeeps(s: Sched, t: Tid)
    requires Linked(s) && AllPlaced(s)
    ensures Linked(ResumeTask(s, t)) && AllPlaced(ResumeTask(s, t))
  {
    hide AddReady, T, R, W;
    if t in s.tasks && T(s, t).state == Suspended {
      assert Placed(s, t);
      AddReadyLinked(s, t);
      var u := AddReadyFrame(s, t);
      hide Linked;
      forall x | x in u.tasks ensures Placed(u, x) { assert Placed(s, x); }
    }
  }

  lemma SuspendTaskKeeps(s: Sched, t: Tid)
    requires Linked(s) && AllPlaced(s) && t in s.tasks
    ensures Linked(SuspendTask(s, t)) && AllPlaced(SuspendTask(s, t))
  {
    hide Remove, SetT, T, R, W;
    assert Placed(s, t);
    PrioInRange(s, t);
    var v := s;
    if T(s, t).state == Ready { RemoveLinked(s, t); v := RemoveFrame(s, t); }
    if T(s, t).state == Ready || T(s, t).state == Running {
      FieldsLinked(v, t, T(v, t).(state := Suspended));
      var u := SetTFrame(v, t, T(v, t).(state := Suspended));
      hide Linked;
      forall x | x in u.tasks ensures Placed(u, x) { assert Placed(s, x); }
    }
  }

  lemma LeaveFrame(s: Sched, t: Tid) returns (u: Sched)
    requires t in s.tasks && T(s, t).event == None
    ensures u == Leave(s, t) == s.(tasks := u.tasks) && u.tasks.Keys == s.tasks.Keys
    ensures T(u, t) == T(s, t).(call := NoCall, answers := 0)
    ensures forall x :: x != t ==> T(u, x) == T(s, x)
    ensures forall n :: R(u, n) == R(s, n)
    ensures forall w :: W(u, w) == W(s, w)
  {
    u := Leave(s, t);
  }

  /** Entering or leaving a call that does not wait, and changing a priority, move no node. */
  lemma FieldsKeep(s: Sched, t: Tid, c: Tcb)
    requires Linked(s) && AllPlaced(s) && t in s.tasks && c.prio < MAX_PRIORITIES && c.base < MAX_PRIORITIES
    requires c.link == T(s, t).link && c.event == T(s, t).event && c.state == T(s, t).state
    requires (c.call == T(s, t).call && c.answers == T(s, t).answers && c.result == T(s, t).result)
             || (c.state != Blocked && !InKernel(c.call))
    ensures Linked(SetT(s, t, c)) && AllPlaced(SetT(s, t, c))
  {
    FieldsLinked(s, t, c);
    var u := SetTFrame(s, t, c);
    hide Linked, SetT, T, R, W;
    assert Placed(s, t);
    forall x | x in u.tasks ensures Placed(u, x) { assert Placed(s, x); }
  }
}

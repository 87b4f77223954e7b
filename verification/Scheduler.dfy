/**
 * scheduler.c as functions on the scheduler's state.
 *
 * Lists are sequences of tasks; `link` and `event` say which list the two intrusive
 * nodes of a task are on. `bits` is the set of levels whose bit is set in the bitmap.
 */
module Scheduler {
  import opened Base
  import opened Sequences
  import Bitmap

  datatype TaskState = Ready | Running | Blocked | Suspended

  datatype WaitList = MutexWaiters(id: nat) | SemWaiters(id: nat) | Receivers(id: nat) | Senders(id: nat)

  /** The list a task's `link` node is on. A READY task's level is the list it is on, not its priority. */
  datatype Link = Off | OnReady(level: nat) | OnDelayed

  /** Where a task stands in its kernel call: between the block half and the resume half, or in neither. */
  datatype Call =
    | NoCall
    | Delaying(ticks: nat)
    | Locking(id: nat, timeout: nat)
    | Taking(id: nat, timeout: nat)
    | Sending(id: nat, item: Item, timeout: nat)
    | Receiving(id: nat, timeout: nat)
    | StartingTimer   // nimble_timer_start, between its critical section and its give

  /** `answers` counts the writes to `last_wait_result` since the call blocked; `arrived` is the wait ticket. */
  datatype Tcb = Tcb(prio: nat, base: nat, state: TaskState, link: Link, event: Option<WaitList>,
                     wake: nat, result: Status, call: Call, answers: nat, arrived: nat)

  datatype Sched = Sched(tasks: map<Tid, Tcb>, ready: map<nat, seq<Tid>>, bits: set<nat>, delayed: seq<Tid>,
                         waits: map<WaitList, seq<Tid>>, tick: nat, cur: Option<Tid>, arrivals: nat)

  const NO_TASK: Tcb := Tcb(0, 0, Suspended, Off, None, 0, OK, NoCall, 0, 0)

  function T(s: Sched, t: Tid): Tcb { if t in s.tasks then s.tasks[t] else NO_TASK }
  function R(s: Sched, n: nat): seq<Tid> { if n in s.ready then s.ready[n] else [] }
  function W(s: Sched, w: WaitList): seq<Tid> { if w in s.waits then s.waits[w] else [] }
  function SetT(s: Sched, t: Tid, c: Tcb): Sched { s.(tasks := s.tasks[t := c]) }

  predicate IsRunning(s: Sched, t: Tid) { s.cur == Some(t) && T(s, t).state == Running }

  // ---- list membership -------------------------------------------------------------------

  /** nimble_list_remove(&tcb->link): a self-linked node is left as it is. */
  function Unlink(s: Sched, t: Tid): Sched {
    match T(s, t).link
    case Off => s
    case OnReady(n) => SetT(s, t, T(s, t).(link := Off)).(ready := s.ready[n := Without(R(s, n), t)])
    case OnDelayed => SetT(s, t, T(s, t).(link := Off)).(delayed := Without(s.delayed, t))
  }

  /** nimble_list_remove(&tcb->event_link). */
  function UnlinkEvent(s: Sched, t: Tid): Sched {
    match T(s, t).event
    case None => s
    case Some(w) => SetT(s, t, T(s, t).(event := None)).(waits := s.waits[w := Without(W(s, w), t)])
  }

  function Keys(s: Sched, q: seq<Tid>): (k: seq<int>)
    ensures |k| == |q| && forall i :: 0 <= i < |q| ==> k[i] == T(s, q[i]).prio
  {
    seq(|q|, i requires 0 <= i < |q| => T(s, q[i]).prio)
  }

  /** insert_waiter_priority_sorted: before the first waiter of strictly lower priority. */
  function InsertWaiter(s: Sched, q: seq<Tid>, t: Tid): seq<Tid> {
    InsertAt(q, FirstBelow(Keys(s, q), T(s, t).prio), t)
  }

  function EnqueueWaiter(s: Sched, w: WaitList, t: Tid): Sched {
    SetT(s, t, T(s, t).(event := Some(w), arrived := s.arrivals))
      .(waits := s.waits[w := InsertWaiter(s, W(s, w), t)], arrivals := s.arrivals + 1)
  }

  // ---- scheduler.c -----------------------------------------------------------------------

  function AddReady(s: Sched, t: Tid): Sched {
    var p := T(s, t).prio;
    SetT(s, t, T(s, t).(state := Ready, link := OnReady(p)))
      .(ready := s.ready[p := R(s, p) + [t]], bits := s.bits + {p})
  }

  function Remove(s: Sched, t: Tid): Sched {
    var p := T(s, t).prio;
    var u := Unlink(s, t);
    if R(u, p) == [] then u.(bits := u.bits - {p}) else u
  }

  function BlockCurrentDelay(s: Sched, t: Tid, wake: nat): Sched {
    var u := Remove(s, t);
    SetT(u, t, T(u, t).(wake := wake, state := Blocked, link := OnDelayed)).(delayed := u.delayed + [t])
  }

  function PrepareBlock(s: Sched, t: Tid, timeout: nat): Sched {
    if timeout != WAIT_FOREVER then BlockCurrentDelay(s, t, (s.tick + timeout) % U32)
    else var u := Remove(s, t); SetT(u, t, T(u, t).(state := Blocked))
  }

  /** The common end of wake_waiter and of a timeout: off both lists, one answer, READY. */
  function MakeReady(s: Sched, t: Tid, answer: Status): Sched {
    var u := Unlink(UnlinkEvent(s, t), t);
    AddReady(SetT(u, t, T(u, t).(result := answer, answers := T(u, t).answers + 1)), t)
  }

  function WakeWaiter(s: Sched, w: WaitList): (Sched, Option<Tid>) {
    if W(s, w) == [] then (s, None) else (MakeReady(s, W(s, w)[0], OK), Some(W(s, w)[0]))
  }

  function Requeued(s: Sched): Sched {
    if s.cur.Some? && T(s, s.cur.value).state == Running then AddReady(s, s.cur.value) else s
  }

  function TopLevel(s: Sched): nat { Bitmap.Highest(s.bits, MAX_PRIORITIES) }

  /** select_next dereferences the head of the list at the highest set bit: there must be one. */
  predicate CanDispatch(s: Sched) {
    var u := Requeued(s);
    u.bits != {} && R(u, TopLevel(u)) != []
  }

  function Chosen(s: Sched): Tid
    requires CanDispatch(s)
  {
    R(Requeued(s), TopLevel(Requeued(s)))[0]
  }

  /** select_next, and the store to nimble_current_tcb that PendSV makes of its result. */
  function SelectNext(s: Sched): Sched
    requires CanDispatch(s)
  {
    var t := Chosen(s);
    var u := Remove(Requeued(s), t);
    SetT(u, t, T(u, t).(state := Running)).(cur := Some(t))
  }

  predicate Due(s: Sched, t: Tid) { SignedDiff(s.tick, T(s, t).wake) >= 0 }

  /** The scan of the delayed list `q`, whose due nodes leave it on the way. */
  function ExpireAll(s: Sched, q: seq<Tid>): Sched
    decreases |q|
  {
    if q == [] then s
    else ExpireAll(ExpireHead(s, q[0]), q[1..])
  }

  function ExpireHead(s: Sched, t: Tid): Sched {
    if Due(s, t) then MakeReady(s, t, Timeout) else s
  }

  function Advanced(s: Sched): Sched { s.(tick := (s.tick + 1) % U32) }

  function Tick(s: Sched): Sched { ExpireAll(Advanced(s), s.delayed) }

  // ---- task.c ----------------------------------------------------------------------------

  function CreateTask(s: Sched, t: Tid, prio: nat): Sched {
    AddReady(SetT(s, t, Tcb(prio, prio, Ready, Off, None, 0, OK, NoCall, 0, 0)), t)
  }

  function SuspendTask(s: Sched, t: Tid): Sched {
    match T(s, t).state
    case Ready => var u := Remove(s, t); SetT(u, t, T(u, t).(state := Suspended))
    case Running => SetT(s, t, T(s, t).(state := Suspended))
    case _ => s
  }

  function ResumeTask(s: Sched, t: Tid): Sched {
    if t in s.tasks && T(s, t).state == Suspended then AddReady(s, t) else s
  }

  // ---- the program counter of a call -----------------------------------------------------

  function WaitsOn(c: Call): Option<WaitList> {
    match c
    case Locking(m, _) => Some(MutexWaiters(m))
    case Taking(m, _) => Some(SemWaiters(m))
    case Sending(q, _, _) => Some(Senders(q))
    case Receiving(q, _) => Some(Receivers(q))
    case _ => None
  }

  function Ticks(c: Call): nat {
    match c
    case Locking(_, t) => t
    case Taking(_, t) => t
    case Sending(_, _, t) => t
    case Receiving(_, t) => t
    case Delaying(t) => t
    case _ => 0
  }

  /** The task is between the block half and the resume half of a kernel call. */
  predicate InKernel(c: Call) { c != NoCall && c != StartingTimer }

  /** The block half puts `link` on the delayed list. */
  predicate Timed(c: Call) { InKernel(c) && (c.Delaying? || Ticks(c) != WAIT_FOREVER) }

  function Enter(s: Sched, t: Tid, call: Call): Sched {
    SetT(s, t, T(s, t).(call := call, answers := 0))
  }

  /** The block half of a call, once the call has decided to wait. */
  function BlockOn(s: Sched, t: Tid, call: Call): Sched {
    var u := match WaitsOn(call)
      case None => BlockCurrentDelay(s, t, (s.tick + Ticks(call)) % U32)
      case Some(w) => PrepareBlock(EnqueueWaiter(s, w, t), t, Ticks(call));
    Enter(u, t, call)
  }

  /** The resume half: the defensive unlink, then the call is over. */
  function Leave(s: Sched, t: Tid): Sched {
    var u := UnlinkEvent(s, t);
    SetT(u, t, T(u, t).(call := NoCall, answers := 0))
  }
}

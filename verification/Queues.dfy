/** Queues over runs: the ring buffer is a FIFO, and which resume halves can lose a wake-up. */
module Queues {
  import opened Base
  import opened Sequences
  import opened Scheduler
  import opened Membership
  import opened Evolution
  import opened Kernel
  import opened Invariants
  import opened Signals
  import opened Handover
  import opened Effects

  // ---- the ring buffer -------------------------------------------------------------------

  /** The items of the ring buffer, oldest first. */
  function Contents(q: Queue): (items: seq<Item>)
    requires QueueOk(q)
    ensures |items| == q.count
  {
    seq(q.count, i requires 0 <= i < q.count => q.buffer[(q.head + i) % |q.buffer|])
  }

  lemma CopyInAppends(q: Queue, item: Item)
    requires QueueOk(q) && q.count < |q.buffer|
    ensures QueueOk(CopyIn(q, item)) && Contents(CopyIn(q, item)) == Contents(q) + [item]
  {
    CopyKeepsQueue(q, item);
    var n, u := |q.buffer|, CopyIn(q, item);
    forall i | 0 <= i < u.count ensures Contents(u)[i] == (Contents(q) + [item])[i] {
      WrapsOnce(q.head + i, n);
      WrapsOnce(q.head + q.count, n);
    }
  }

  lemma CopyOutPops(q: Queue)
    requires QueueOk(q) && q.count > 0
    ensures QueueOk(CopyOut(q).0) && [CopyOut(q).1] + Contents(CopyOut(q).0) == Contents(q)
  {
    CopyKeepsQueue(q, 0);
    var n, u := |q.buffer|, CopyOut(q).0;
    WrapsOnce(q.head, n);
    WrapsOnce(q.head + 1, n);
    forall i | 0 <= i < u.count ensures Contents(u)[i] == Contents(q)[i + 1] {
      WrapsOnce(q.head + (i + 1), n);
      WrapsOnce((q.head + 1) % n + i, n);
    }
  }

  // ---- acceptance and delivery -----------------------------------------------------------

  predicate SendsTo(step: Step, id: nat) {
    (step.Send? && step.q == id) || (step.SendReturn? && step.q == id) || (step.SendFromIsr? && step.q == id)
  }

  predicate ReceivesFrom(step: Step, id: nat) {
    (step.Receive? && step.q == id) || (step.ReceiveReturn? && step.q == id)
  }

  /** The item of each task's last `Send` step: who asked for what, told from the steps of the run alone. */
  function Noted(k: Kernel, step: Step, asked: map<Tid, Item>): map<Tid, Item> {
    if step.Send? then asked[Self(k) := step.item] else asked
  }

  /** The item a send offers: its own, or, on resuming, the one of the `Send` step that waited. */
  function Offered(k: Kernel, step: Step, asked: map<Tid, Item>): Item
    requires step.Send? || step.SendReturn? || step.SendFromIsr?
  {
    if !step.SendReturn? then step.item else if Self(k) in asked then asked[Self(k)] else 0
  }

  predicate Accepts(k: Kernel, step: Step, id: nat)
    requires Enabled(k, step)
  {
    SendsTo(step, id) && Next(k, step).1 == Returns(OK)
  }

  /** The items a step accepts: the one offered, exactly if the send returns OK. */
  function Accepted(k: Kernel, step: Step, id: nat, asked: map<Tid, Item>): seq<Item>
    requires Enabled(k, step)
  {
    if Accepts(k, step, id) then [Offered(k, step, asked)] else []
  }

  /** The items a step delivers: the one received, exactly if a receive returns one. */
  function Delivered(k: Kernel, step: Step, id: nat): seq<Item>
    requires Enabled(k, step)
  {
    if ReceivesFrom(step, id) && Next(k, step).1.Got? then [Next(k, step).1.item] else []
  }

  /** The item that a send puts into the buffer. */
  function Stored(k: Kernel, step: Step): Item
    requires Enabled(k, step) && (step.Send? || step.SendReturn? || step.SendFromIsr?)
  {
    if step.SendReturn? then T(k.s, Self(k)).call.item else step.item
  }

  /** Every send that waits holds the item its task asked to send. */
  ghost predicate Remembers(k: Kernel, asked: map<Tid, Item>) {
    forall t :: t in k.s.tasks && T(k.s, t).call.Sending? ==> t in asked && asked[t] == T(k.s, t).call.item
  }

  lemma StoredIsOffered(k: Kernel, step: Step, asked: map<Tid, Item>)
    requires Inv(k) && Enabled(k, step) && Remembers(k, asked) && (step.Send? || step.SendReturn? || step.SendFromIsr?)
    ensures Stored(k, step) == Offered(k, step, asked)
  {
    if step.SendReturn? { SelfFacts(k); }
  }

  lemma StillRemembers(k: Kernel, step: Step, asked: map<Tid, Item>)
    requires Inv(k) && Enabled(k, step) && Remembers(k, asked)
    ensures Remembers(Next(k, step).0, Noted(k, step, asked))
  {
    var u := Next(k, step).0;
    forall t | t in u.s.tasks && T(u.s, t).call.Sending?
      ensures t in Noted(k, step, asked) && Noted(k, step, asked)[t] == T(u.s, t).call.item
    {
      SenderRemembered(k, step, asked, t);
    }
  }

  lemma SenderRemembered(k: Kernel, step: Step, asked: map<Tid, Item>, t: Tid)
    requires Inv(k) && Enabled(k, step) && Remembers(k, asked)
    requires t in Next(k, step).0.s.tasks && T(Next(k, step).0.s, t).call.Sending?
    ensures t in Noted(k, step, asked) && Noted(k, step, asked)[t] == T(Next(k, step).0.s, t).call.item
  {
    SenderIsFree(k, step);
    SenderFrom(k, step, t);
    hide Inv, Enabled, Next, Blocks, T;
    if !(t in k.s.tasks && T(k.s, t).call == T(Next(k, step).0.s, t).call) {
      WaitsExactly(k, step);
      CallRecorded(k, step);
    }
  }

  /** A task in a send was in it before, or has just made it and waits. */
  lemma SenderFrom(k: Kernel, step: Step, t: Tid)
    requires Inv(k) && Enabled(k, step)
    requires t in Next(k, step).0.s.tasks && T(Next(k, step).0.s, t).call.Sending?
    ensures (t in k.s.tasks && T(k.s, t).call == T(Next(k, step).0.s, t).call)
        || (Actor(k, step) == Some(t) && Next(k, step).1 == Waits)
  {
    hide Inv, Enabled, Next, T;
    var u := AnyTask(k, step, t);
  }

  lemma CallRecorded(k: Kernel, step: Step)
    requires Inv(k) && Enabled(k, step) && Blocks(k, step)
    ensures T(Next(k, step).0.s, Self(k)).call == CallOf(step)
  {
    hide Inv, Enabled, Next, Blocks, CallOf, ListOf, Patience, JoinsInOrder, T, R, W;
    SleepsAsAsked(k, step);
  }

  lemma SenderIsFree(k: Kernel, step: Step)
    requires Inv(k) && Enabled(k, step)
    ensures step.Send? ==> T(k.s, Self(k)).call == NoCall && k.s.cur == Some(Self(k))
    ensures Actor(k, step).Some? ==> Actor(k, step) == Some(Self(k))
  {}

  lemma SendSteps(k: Kernel, step: Step, id: nat)
    requires Inv(k) && Enabled(k, step) && id in k.queues && SendsTo(step, id)
    ensures id in Next(k, step).0.queues && Delivered(k, step, id) == []
    ensures var q := k.queues[id];
      if Next(k, step).1 == Returns(OK) then q.count < |q.buffer|
          && Next(k, step).0.queues[id] == CopyIn(q, Stored(k, step))
      else Next(k, step).0.queues[id] == q
  {
    hide Inv, TaskCode, BlockOn, Leave, WakeWaiter, T, CopyIn, CopyOut;
    if step.SendReturn? { SelfFacts(k); }
  }

  lemma ReceiveSteps(k: Kernel, step: Step, id: nat)
    requires Inv(k) && Enabled(k, step) && id in k.queues && ReceivesFrom(step, id)
    ensures id in Next(k, step).0.queues && !Accepts(k, step, id)
    ensures var q := k.queues[id];
      if Next(k, step).1.Got? then q.count > 0 && Next(k, step).0.queues[id] == CopyOut(q).0
          && Next(k, step).1.item == CopyOut(q).1
      else Next(k, step).0.queues[id] == q
  {
    hide Inv, TaskCode, BlockOn, Leave, WakeWaiter, T, CopyIn, CopyOut;
  }

  lemma OtherQueueSteps(k: Kernel, step: Step, id: nat)
    requires Enabled(k, step) && id in k.queues && !SendsTo(step, id) && !ReceivesFrom(step, id)
    ensures id in Next(k, step).0.queues && Next(k, step).0.queues[id] == k.queues[id]
  {
    hide CanDispatch, TaskCode, Resumed, SelectNext, Tick, BlockOn, Leave, WakeWaiter, CreateTask, SuspendTask,
         ResumeTask, T, CopyIn, CopyOut, MutexLock, MutexUnlock;
    match step
    case Lock(m, timeout) => LockEnds(k, m, timeout);
    case Unlock(m) => UnlockEnds(k, m);
    case _ =>
  }

  lemma QueueOfInv(k: Kernel, id: nat)
    requires Inv(k) && id in k.queues
    ensures QueueOk(k.queues[id])
  {}

  /** One step of the refinement: the FIFO before, and what came in, is what went out and the FIFO after. */
  lemma FifoStep(k: Kernel, step: Step, id: nat, asked: map<Tid, Item>)
    requires Inv(k) && Enabled(k, step) && id in k.queues && Remembers(k, asked)
    ensures Inv(Next(k, step).0) && QueueOk(k.queues[id])
    ensures id in Next(k, step).0.queues && QueueOk(Next(k, step).0.queues[id])
    ensures Contents(k.queues[id]) + Accepted(k, step, id, asked) ==
        Delivered(k, step, id) + Contents(Next(k, step).0.queues[id])
  {
    hide Inv, Enabled, Next, QueueOk, Contents, CopyIn, CopyOut, Offered, Stored, Remembers;
    NextKeeps(k, step);
    QueueOfInv(k, id);
    var q := k.queues[id];
    if SendsTo(step, id) {
      SendSteps(k, step, id);
      StoredIsOffered(k, step, asked);
      if Next(k, step).1 == Returns(OK) { CopyInAppends(q, Stored(k, step)); }
    } else if ReceivesFrom(step, id) {
      ReceiveSteps(k, step, id);
      if Next(k, step).1.Got? { CopyOutPops(q); }
    } else {
      OtherQueueSteps(k, step, id);
    }
  }

  function AllAccepted(k: Kernel, steps: seq<Step>, id: nat, asked: map<Tid, Item>): seq<Item>
    requires Legal(k, steps)
    decreases |steps|
  {
    if steps == [] then []
    else
      Accepted(k, steps[0], id, asked)
        + AllAccepted(Next(k, steps[0]).0, steps[1..], id, Noted(k, steps[0], asked))
  }

  function AllDelivered(k: Kernel, steps: seq<Step>, id: nat): seq<Item>
    requires Legal(k, steps)
    decreases |steps|
  {
    if steps == [] then [] else Delivered(k, steps[0], id) + AllDelivered(Next(k, steps[0]).0, steps[1..], id)
  }

  /** Over any interleaving: items accepted, in order, are the items delivered, in order, and then the contents. */
  lemma {:induction false} FifoRun(k: Kernel, steps: seq<Step>, id: nat, asked: map<Tid, Item>)
    requires Inv(k) && Legal(k, steps) && id in k.queues && Remembers(k, asked)
    ensures QueueOk(k.queues[id]) && id in Run(k, steps).queues && QueueOk(Run(k, steps).queues[id])
    ensures Contents(k.queues[id]) + AllAccepted(k, steps, id, asked)
            == AllDelivered(k, steps, id) + Contents(Run(k, steps).queues[id])
    decreases |steps|
  {
    hide Inv, Enabled, Next, Accepted, Delivered, Contents, QueueOk, Remembers, Noted;
    QueueOfInv(k, id);
    if steps != [] {
      var u, noted := Next(k, steps[0]).0, Noted(k, steps[0], asked);
      FifoStep(k, steps[0], id, asked);
      StillRemembers(k, steps[0], asked);
      FifoRun(u, steps[1..], id, noted);
      Splice(Contents(k.queues[id]), Accepted(k, steps[0], id, asked), AllAccepted(u, steps[1..], id, noted),
             Delivered(k, steps[0], id), Contents(u.queues[id]), AllDelivered(u, steps[1..], id),
                 Contents(Run(u, steps[1..]).queues[id]));
    }
  }

  lemma Splice(a: seq<Item>, b: seq<Item>, c: seq<Item>, d: seq<Item>, e: seq<Item>, f: seq<Item>, g: seq<Item>)
    requires a + b == d + e && e + c == f + g
    ensures a + (b + c) == (d + f) + g
  {
    assert a + (b + c) == (a + b) + c;
    assert (d + e) + c == d + (e + c);
  }

  /**
   * From boot a queue is a FIFO: the items of the `Send` and `SendFromIsr` steps that were accepted, at once or after a
   * wait, are the items delivered followed by those in the buffer.
   */
  lemma QueueIsFifo(k: Kernel, steps: seq<Step>, id: nat)
    requires Boot(k) && Legal(k, steps) && id in k.queues
    ensures id in Run(k, steps).queues && QueueOk(Run(k, steps).queues[id])
    ensures AllAccepted(k, steps, id, map[]) == AllDelivered(k, steps, id) + Contents(Run(k, steps).queues[id])
  {
    BootInv(k);
    BootRemembers(k);
    FifoRun(k, steps, id, map[]);
    assert Contents(k.queues[id]) == [];
  }

  lemma BootRemembers(k: Kernel)
    requires Boot(k)
    ensures Remembers(k, map[])
  {}

  /** A call that returns neither OK nor an item leaves every queue alone: nothing is half sent or half received. */
  lemma FailedCallsChangeNothing(k: Kernel, step: Step, id: nat)
    requires Inv(k) && Enabled(k, step) && id in k.queues
    requires Next(k, step).1 != Returns(OK) && !Next(k, step).1.Got?
    ensures id in Next(k, step).0.queues && Next(k, step).0.queues[id] == k.queues[id]
  {
    hide Inv, Enabled, Next, Stored;
    if SendsTo(step, id) { SendSteps(k, step, id); }
    else if ReceivesFrom(step, id) { ReceiveSteps(k, step, id); }
    else { OtherQueueSteps(k, step, id); }
  }

  // ---- lost wake-ups ---------------------------------------------------------------------

  /** Whenever a receiver waits, every item left is spoken for by a receiver already signalled. */
  ghost predicate ItemsCovered(k: Kernel, id: nat)
    requires id in k.queues
  {
    W(k.s, Receivers(id)) != [] ==> k.queues[id].count <= |Pending(k.s, Receivers(id))|
  }

  /** Whenever a sender waits, every free slot is spoken for by a sender already signalled. */
  ghost predicate SlotsCovered(k: Kernel, id: nat)
    requires id in k.queues
  {
    W(k.s, Senders(id)) != [] ==> |k.queues[id].buffer| - k.queues[id].count <= |Pending(k.s, Senders(id))|
  }

  /** What becomes of the waiters of `w`: the signalled head leaves, and only a caller that blocks on `w` joins. */
  lemma WaitersOnlyShrink(k: Kernel, step: Step, w: WaitList)
    requires Inv(k) && Enabled(k, step) && !w.MutexWaiters? && W(Next(k, step).0.s, w) != []
    ensures (Joins(step) == Some(w) && Next(k, step).1 == Waits) || W(k.s, w) != []
  {
    hide Inv, Enabled, Next, Linked, AllPlaced, Quiet, IdleKept, MutexesOk, SemsOk, IdleOk, T, W;
    var q := W(Next(k, step).0.s, w);
    assert q[0] in q;
    if NoMutex(step) {
      PlainStep(k, step);
      if Joins(step).Some? && Next(k, step).1 != Waits {
        JoinsByWaiting(k, step, w);
      }
    } else {
      MutexStepShrinks(k, step, w);
    }
  }

  /** A call that does not wait adds nobody to a wait list. */
  lemma JoinsByWaiting(k: Kernel, step: Step, w: WaitList)
    requires Inv(k) && Enabled(k, step) && Joins(step).Some? && Next(k, step).1 != Waits
    ensures forall t :: t in W(Next(k, step).0.s, w) ==> t in W(k.s, w)
  {
    hide Inv, Linked, AllPlaced, Quiet, IdleKept, Evolves, TaskCode, WakeWaiter, BlockOn, T, W, CopyIn, CopyOut;
    MutexesOfInv(k);
    if step.Send? { OrdinaryWake(k.s, Receivers(step.q), None, None); }
    if step.Receive? { OrdinaryWake(k.s, Senders(step.q), None, None); }
  }

  /** A caller joins the waiters only of a queue that has nothing for it. */
  lemma JoinsWhenStuck(k: Kernel, step: Step, id: nat)
    requires Inv(k) && Enabled(k, step) && id in k.queues
    ensures Joins(step) == Some(Receivers(id)) && Next(k, step).1 == Waits ==> k.queues[id].count == 0
    ensures Joins(step) == Some(Senders(id)) && Next(k, step).1 == Waits ==> k.queues[id].count >= |k.queues[id].buffer|
  {
    hide Inv, TaskCode, BlockOn, Leave, WakeWaiter, T, CopyIn, CopyOut;
  }

  /** The step that can strand receivers: the resume half of a send puts an item in and wakes nobody. */
  predicate StrandsReceivers(k: Kernel, step: Step, id: nat)
    requires id in k.queues
  {
    && step == SendReturn(id) && T(k.s, Self(k)).result != Timeout && k.queues[id].count < |k.queues[id].buffer|
    && W(k.s, Receivers(id)) != [] && k.queues[id].count == |Pending(k.s, Receivers(id))|
  }

  /** The step that can strand senders: the resume half of a receive frees a slot and wakes nobody. */
  predicate StrandsSenders(k: Kernel, step: Step, id: nat)
    requires id in k.queues
  {
    && step == ReceiveReturn(id) && T(k.s, Self(k)).result != Timeout && k.queues[id].count > 0
    && W(k.s, Senders(id)) != [] && |k.queues[id].buffer| - k.queues[id].count == |Pending(k.s, Senders(id))|
  }

  /** How the number of receivers signalled and not resumed moves. */
  lemma ReceiverPending(k: Kernel, step: Step, id: nat)
    requires Inv(k) && Enabled(k, step) && id in k.queues
    ensures var w := Receivers(id);
      var now, was := |Pending(Next(k, step).0.s, w)|, |Pending(k.s, w)|;
      && (step == ReceiveReturn(id) ==> now == (if T(k.s, Self(k)).result == OK then was - 1 else was))
      && ((step.Send? && step.q == id) || (step.SendFromIsr? && step.q == id) ==>
            now == if Next(k, step).1 == Returns(OK) && W(k.s, w) != [] then was + 1 else was)
      && (step != ReceiveReturn(id) && !(step.Send? && step.q == id) && !(step.SendFromIsr? && step.q == id) ==>
          now == was)
  {
    hide Inv, Next, TaskCode, CanDispatch, Pending, T, W;
    var w := Receivers(id);
    PendingSteps(k, step, w);
    FinisherOn(k, step, w);
    AddAll(Pending(k.s, w) - Finisher(k, step), Signalled(k, step, w));
    DropOne(Pending(k.s, w), Self(k));
    if step.Send? || step.SendFromIsr? { SendReturnsOk(k, step); }
  }

  lemma SenderPending(k: Kernel, step: Step, id: nat)
    requires Inv(k) && Enabled(k, step) && id in k.queues
    ensures var w := Senders(id);
      var now, was := |Pending(Next(k, step).0.s, w)|, |Pending(k.s, w)|;
      && (step == SendReturn(id) ==> now == (if T(k.s, Self(k)).result == OK then was - 1 else was))
      && (step.Receive? && step.q == id ==> now == if Next(k, step).1.Got? && W(k.s, w) != [] then was + 1 else was)
      && (step != SendReturn(id) && !(step.Receive? && step.q == id) ==> now == was)
  {
    hide Inv, Next, TaskCode, CanDispatch, Pending, T, W;
    var w := Senders(id);
    PendingSteps(k, step, w);
    FinisherOn(k, step, w);
    AddAll(Pending(k.s, w) - Finisher(k, step), Signalled(k, step, w));
    DropOne(Pending(k.s, w), Self(k));
    if step.Receive? { ReceiveGetsOne(k, step); }
  }

  lemma SendReturnsOk(k: Kernel, step: Step)
    requires Enabled(k, step) && (step.Send? || step.SendFromIsr?)
    ensures Next(k, step).1 == Returns(OK) <==> k.queues[step.q].count < |k.queues[step.q].buffer|
  {}

  lemma ReceiveGetsOne(k: Kernel, step: Step)
    requires Enabled(k, step) && step.Receive?
    ensures Next(k, step).1.Got? <==> k.queues[step.q].count > 0
  {}

  /** Who finishes a call on `w`, and whether he was pending on it. */
  lemma FinisherOn(k: Kernel, step: Step, w: WaitList)
    requires Inv(k) && Enabled(k, step) && (w.Receivers? || w.Senders?)
    ensures var ends := (w.Receivers? && step == ReceiveReturn(w.id)) || (w.Senders? && step == SendReturn(w.id));
      && (ends ==> Finisher(k, step) == {Self(k)} && (Self(k) in Pending(k.s, w) <==> T(k.s, Self(k)).result == OK))
      && (!ends ==> Pending(k.s, w) - Finisher(k, step) == Pending(k.s, w))
  {
    hide Inv, Linked, AllPlaced, TaskCode, CanDispatch;
    var ends := (w.Receivers? && step == ReceiveReturn(w.id)) || (w.Senders? && step == SendReturn(w.id));
    if ends { SelfFacts(k); }
    else if Finishes(k, step, Self(k)) { assert WaitsOn(T(k.s, Self(k)).call) != Some(w); }
  }

  lemma ResumesWithItem(k: Kernel, id: nat)
    requires Enabled(k, ReceiveReturn(id)) && id in k.queues
    ensures Next(k, ReceiveReturn(id)).1.Got? <==> T(k.s, Self(k)).result != Timeout && k.queues[id].count > 0
  {}

  lemma ResumesWithRoom(k: Kernel, id: nat)
    requires Enabled(k, SendReturn(id)) && id in k.queues
    ensures Next(k, SendReturn(id)).1 == Returns(OK) <==>
        T(k.s, Self(k)).result != Timeout && k.queues[id].count < |k.queues[id].buffer|
  {}

  lemma ReturnLeavesWaiters(k: Kernel, step: Step, w: WaitList)
    requires Inv(k) && Enabled(k, step) && (step.SendReturn? || step.ReceiveReturn?)
    ensures W(Next(k, step).0.s, w) == W(k.s, w)
  {
    hide Inv, Placed, Leave, T, W, CopyIn, CopyOut;
    SelfFacts(k);
    var u := LeaveFrame(k.s, Self(k));
  }

  /** Receivers are never stranded by a task's send, an interrupt's or a timeout: only by a send that had to wait. */
  lemma ItemsCoveredExactly(k: Kernel, step: Step, id: nat)
    requires Inv(k) && Enabled(k, step) && id in k.queues && ItemsCovered(k, id)
    ensures id in Next(k, step).0.queues
    ensures ItemsCovered(Next(k, step).0, id) <==> !StrandsReceivers(k, step, id)
  {
    hide Inv, Enabled, Next, Pending, QueueOk, T, W;
    QueueMoves(k, step, id);
    ReceiverPending(k, step, id);
    var u := Next(k, step).0;
    if W(u.s, Receivers(id)) != [] {
      WaitersOnlyShrink(k, step, Receivers(id));
      JoinsWhenStuck(k, step, id);
    }
    if step == ReceiveReturn(id) { ResumesWithItem(k, id); ResumedAnswer(k, step); }
    if step == SendReturn(id) { ReturnLeavesWaiters(k, step, Receivers(id)); ResumesWithRoom(k, id); }
  }

  lemma SlotsCoveredExactly(k: Kernel, step: Step, id: nat)
    requires Inv(k) && Enabled(k, step) && id in k.queues && SlotsCovered(k, id)
    ensures id in Next(k, step).0.queues
    ensures SlotsCovered(Next(k, step).0, id) <==> !StrandsSenders(k, step, id)
  {
    hide Inv, Enabled, Next, Pending, QueueOk, T, W;
    QueueMoves(k, step, id);
    SenderPending(k, step, id);
    var u := Next(k, step).0;
    if W(u.s, Senders(id)) != [] {
      WaitersOnlyShrink(k, step, Senders(id));
      JoinsWhenStuck(k, step, id);
    }
    if step == SendReturn(id) { ResumesWithRoom(k, id); ResumedAnswer(k, step); }
    if step == ReceiveReturn(id) { ReturnLeavesWaiters(k, step, Senders(id)); ResumesWithItem(k, id); }
  }

  lemma ResumedAnswer(k: Kernel, step: Step)
    requires Inv(k) && Enabled(k, step) && (step.SendReturn? || step.ReceiveReturn?)
    ensures T(k.s, Self(k)).result == OK || T(k.s, Self(k)).result == Timeout
  {
    SelfFacts(k);
  }

  /** The count moves by what is accepted and delivered; the capacity never. */
  lemma QueueMoves(k: Kernel, step: Step, id: nat)
    requires Inv(k) && Enabled(k, step) && id in k.queues
    ensures var q := k.queues[id];
      && id in Next(k, step).0.queues && |Next(k, step).0.queues[id].buffer| == |q.buffer| && q.count <= |q.buffer|
      && Next(k, step).0.queues[id].count
        == q.count + (if Accepts(k, step, id) then 1 else 0) - |Delivered(k, step, id)|
  {
    hide Inv, Enabled, Next, Stored;
    QueueOfInv(k, id);
    if SendsTo(step, id) { SendSteps(k, step, id); }
    else if ReceivesFrom(step, id) { ReceiveSteps(k, step, id); }
    else { OtherQueueSteps(k, step, id); }
  }

  /** The producers of the queue do not wait, as an interrupt cannot. */
  predicate SendersNeverWait(k: Kernel, steps: seq<Step>, id: nat)
    requires Legal(k, steps)
    decreases |steps|
  {
    steps != [] ==> steps[0] != SendReturn(id) && SendersNeverWait(Next(k, steps[0]).0, steps[1..], id)
  }

  /** In every state of the run whoever waits for the queue has been passed over by no item and no slot. */
  ghost predicate NobodyStranded(k: Kernel, steps: seq<Step>, id: nat)
    requires Legal(k, steps)
    decreases |steps|
  {
    && id in k.queues && ItemsCovered(k, id) && SlotsCovered(k, id)
    && (steps == [] || NobodyStranded(Next(k, steps[0]).0, steps[1..], id))
  }

  predicate NeverStrandsWaiters(k: Kernel, steps: seq<Step>, id: nat)
    requires Legal(k, steps)
    decreases |steps|
  {
    steps != [] ==>
      && id in k.queues && !StrandsReceivers(k, steps[0], id) && !StrandsSenders(k, steps[0], id)
      && NeverStrandsWaiters(Next(k, steps[0]).0, steps[1..], id)
  }

  lemma {:induction false} StrandedThroughout(k: Kernel, steps: seq<Step>, id: nat)
    requires Inv(k) && Legal(k, steps) && id in k.queues && ItemsCovered(k, id) && SlotsCovered(k, id)
    ensures NobodyStranded(k, steps, id) <==> NeverStrandsWaiters(k, steps, id)
    decreases |steps|
  {
    if steps != [] {
      hide Inv, Enabled, Next, ItemsCovered, SlotsCovered, StrandsReceivers, StrandsSenders;
      var u := Next(k, steps[0]).0;
      ItemsCoveredExactly(k, steps[0], id);
      SlotsCoveredExactly(k, steps[0], id);
      NextKeeps(k, steps[0]);
      if ItemsCovered(u, id) && SlotsCovered(u, id) { StrandedThroughout(u, steps[1..], id); }
      else { assert !NobodyStranded(u, steps[1..], id); }
    }
  }

  lemma {:induction false} StaysCovered(k: Kernel, steps: seq<Step>, id: nat)
    requires Inv(k) && Legal(k, steps) && id in k.queues && ItemsCovered(k, id) && SendersNeverWait(k, steps, id)
    ensures id in Run(k, steps).queues && ItemsCovered(Run(k, steps), id)
    decreases |steps|
  {
    hide Inv, Enabled, Next, ItemsCovered;
    if steps != [] {
      ItemsCoveredExactly(k, steps[0], id);
      NextKeeps(k, steps[0]);
      StaysCovered(Next(k, steps[0]).0, steps[1..], id);
    }
  }

  /** At boot nobody waits and nobody is signalled. */
  lemma BootIsCovered(k: Kernel, id: nat, c: Tid)
    requires Boot(k) && id in k.queues
    ensures Inv(k) && ItemsCovered(k, id) && SlotsCovered(k, id) && ItemKept(k, id, c)
  {
    BootInv(k);
    hide Inv;
    assert k.s.tasks.Keys == {IDLE} && T(k.s, IDLE).call == NoCall;
    assert forall w :: W(k.s, w) == [];
  }

  /**
   * From boot: nobody is ever stranded at a queue exactly if no resumed call moves an item nobody was signalled for.
   */
  lemma WakeupsExactly(k: Kernel, steps: seq<Step>, id: nat)
    requires Boot(k) && Legal(k, steps) && id in k.queues
    ensures NobodyStranded(k, steps, id) <==> NeverStrandsWaiters(k, steps, id)
  {
    hide Boot, Inv, Legal, ItemsCovered, SlotsCovered, NobodyStranded, NeverStrandsWaiters;
    BootIsCovered(k, id, IDLE);
    StrandedThroughout(k, steps, id);
  }

  /** From boot, with producers that never wait, no receiver is stranded, however consumers block and time out. */
  lemma NoLostWakeup(k: Kernel, steps: seq<Step>, id: nat)
    requires Boot(k) && Legal(k, steps) && id in k.queues && SendersNeverWait(k, steps, id)
    ensures id in Run(k, steps).queues && ItemsCovered(Run(k, steps), id)
  {
    hide Boot, Inv, Legal, ItemsCovered, SendersNeverWait, Run;
    BootIsCovered(k, id, IDLE);
    StaysCovered(k, steps, id);
  }

  // ---- a single consumer -----------------------------------------------------------------

  /** Only `c` receives from the queue. */
  predicate OnlyReceiver(k: Kernel, steps: seq<Step>, id: nat, c: Tid)
    requires Legal(k, steps)
    decreases |steps|
  {
    steps != [] ==>
      && (steps[0].Receive? && steps[0].q == id ==> Self(k) == c)
      && OnlyReceiver(Next(k, steps[0]).0, steps[1..], id, c)
  }

  /** Nobody but `c` is in a receive, and if `c` has been signalled its item is there. */
  ghost predicate ItemKept(k: Kernel, id: nat, c: Tid)
    requires id in k.queues
  {
    && (forall t :: t in k.s.tasks && T(k.s, t).call.Receiving? && T(k.s, t).call.id == id ==> t == c)
    && (c in Pending(k.s, Receivers(id)) ==> k.queues[id].count > 0)
  }

  lemma CallsStart(k: Kernel, step: Step, t: Tid, id: nat)
    requires Inv(k) && Enabled(k, step) && t in Next(k, step).0.s.tasks
    requires T(Next(k, step).0.s, t).call.Receiving? && T(Next(k, step).0.s, t).call.id == id
    ensures (t in k.s.tasks && T(k.s, t).call == T(Next(k, step).0.s, t).call)
        || (Self(k) == t && step.Receive? && step.q == id)
  {
    hide Inv, Enabled, Next, T;
    NewWaiter(k, step, t, Receivers(id));
    if !(t in k.s.tasks && T(k.s, t).call == T(Next(k, step).0.s, t).call) { JoinerIsSelf(k, step, t); }
  }

  lemma JoinerIsSelf(k: Kernel, step: Step, t: Tid)
    requires Inv(k) && Enabled(k, step) && step.Receive? && t in Next(k, step).0.s.tasks
    requires (t in k.s.tasks ==> !InKernel(T(k.s, t).call)) && InKernel(T(Next(k, step).0.s, t).call)
    ensures t == Self(k)
  {
    if t in k.s.tasks && T(k.s, t).state == Blocked { BlockedInCall(k, t); }
    hide Inv, Plain, ListsEvolve, PatientStay, SortedKept, ActorEvolves, Enabled, Next, T;
    OrdinaryStep(k, step);
  }

  lemma SingleConsumerStep(k: Kernel, step: Step, id: nat, c: Tid)
    requires Inv(k) && Enabled(k, step) && id in k.queues && ItemKept(k, id, c)
    requires step.Receive? && step.q == id ==> Self(k) == c
    ensures id in Next(k, step).0.queues && ItemKept(Next(k, step).0, id, c)
  {
    hide Inv, Enabled, Next, Pending, Finishes, Wakes, T, W;
    var u := Next(k, step).0;
    forall t | t in u.s.tasks && T(u.s, t).call.Receiving? && T(u.s, t).call.id == id ensures t == c {
      CallsStart(k, step, t, id);
    }
    QueueMoves(k, step, id);
    PendingSteps(k, step, Receivers(id));
    if c in Pending(u.s, Receivers(id)) {
      if c in Signalled(k, step, Receivers(id)) { SignalBringsItem(k, step, id); }
      else { ConsumerBusy(k, step, id, c); }
    }
  }

  lemma SignalBringsItem(k: Kernel, step: Step, id: nat)
    requires Enabled(k, step) && id in k.queues && Wakes(k, step) == Some(Receivers(id))
    ensures Accepts(k, step, id) && Delivered(k, step, id) == []
  {}

  /** While `c` is between its signal and its resume, nobody takes an item. */
  lemma ConsumerBusy(k: Kernel, step: Step, id: nat, c: Tid)
    requires Inv(k) && Enabled(k, step) && id in k.queues && ItemKept(k, id, c)
    requires step.Receive? && step.q == id ==> Self(k) == c
    requires c in Pending(k.s, Receivers(id)) && c !in Finisher(k, step)
    ensures Delivered(k, step, id) == []
  {
    if ReceivesFrom(step, id) { SelfFacts(k); }
  }

  lemma {:induction false} ConsumerServed(k: Kernel, steps: seq<Step>, id: nat, c: Tid)
    requires Inv(k) && Legal(k, steps) && id in k.queues && ItemKept(k, id, c) && OnlyReceiver(k, steps, id, c)
    ensures var u := Run(k, steps);
      && id in u.queues && ItemKept(u, id, c)
      && (Enabled(u, ReceiveReturn(id)) && T(u.s, Self(u)).result == OK ==> Next(u, ReceiveReturn(id)).1.Got?)
    decreases |steps|
  {
    if steps == [] {
      if Enabled(k, ReceiveReturn(id)) && T(k.s, Self(k)).result == OK { SignalledFindsItem(k, id, c); }
    } else {
      hide Inv, Enabled, Next, ItemKept;
      SingleConsumerStep(k, steps[0], id, c);
      NextKeeps(k, steps[0]);
      ConsumerServed(Next(k, steps[0]).0, steps[1..], id, c);
    }
  }

  lemma SignalledFindsItem(k: Kernel, id: nat, c: Tid)
    requires Inv(k) && id in k.queues && ItemKept(k, id, c) && Enabled(k, ReceiveReturn(id))
    requires T(k.s, Self(k)).result == OK
    ensures Next(k, ReceiveReturn(id)).1.Got?
  {
    SelfFacts(k);
    assert Self(k) in Pending(k.s, Receivers(id));
  }

  /** From boot, with a single consumer, a signalled receive finds its item, whoever sends and however sends block. */
  lemma SingleConsumer(k: Kernel, steps: seq<Step>, id: nat, c: Tid)
    requires Boot(k) && Legal(k, steps) && id in k.queues && OnlyReceiver(k, steps, id, c)
    ensures var u := Run(k, steps);
      id in u.queues && (Enabled(u, ReceiveReturn(id)) && T(u.s, Self(u)).result == OK ==>
          Next(u, ReceiveReturn(id)).1.Got?)
  {
    hide Boot, Inv, Legal, ItemKept, OnlyReceiver, Run, Enabled, Next;
    BootIsCovered(k, id, c);
    ConsumerServed(k, steps, id, c);
  }
}

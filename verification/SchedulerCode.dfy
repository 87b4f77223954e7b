/**
 * scheduler.c and task.c in place: the ready, delayed and wait lists are rings of nodes on the heap, the bitmap is a
 * 32-bit word, and the control blocks change statement by statement.
 */
module SchedulerCode {
  import opened Base
  import opened Sequences
  import opened Scheduler
  import opened Membership
  import opened Ticking
  import opened Evolution
  import IntrusiveList
  import opened Rings
  import Bitmap

  /** The lists that the `link` nodes of control blocks can be on. */
  datatype LinkList = ReadyList(level: nat) | DelayedList

  function PlaceOf(link: Link): Option<LinkList> {
    match link
    case Off => None
    case OnReady(n) => Some(ReadyList(n))
    case OnDelayed => Some(DelayedList)
  }

  /** The rings of the `link` nodes hold what the ready lists and the delayed list of `s` do. */
  ghost predicate LinksMirror(s: Sched, heads: set<LinkList>, lists: map<LinkList, seq<nat>>, nodes: set<nat>,
                              place: map<nat, LinkList>) {
    && lists.Keys == heads && DelayedList in heads && (forall n: nat :: ReadyList(n) in heads <==> n < MAX_PRIORITIES)
    && lists[DelayedList] == s.delayed
    && (forall n: nat :: R(s, n) == if n < MAX_PRIORITIES then lists[ReadyList(n)] else [])
    && nodes == s.tasks.Keys
        && (forall t :: t in s.tasks ==> PlaceOf(T(s, t).link) == if t in place then Some(place[t]) else None)
    && (forall t :: t in place ==> t in s.tasks && place[t] in heads)
  }

  /** The rings of the `event_link` nodes hold what the wait lists of `s` do. */
  ghost predicate EventsMirror(s: Sched, heads: set<WaitList>, lists: map<WaitList, seq<nat>>, nodes: set<nat>,
                               place: map<nat, WaitList>) {
    && lists.Keys == heads && (forall w :: W(s, w) == if w in heads then lists[w] else [])
    && nodes == s.tasks.Keys
        && (forall t :: t in s.tasks ==> T(s, t).event == if t in place then Some(place[t]) else None)
    && (forall t :: t in place ==> t in s.tasks && place[t] in heads)
  }

  /** The heads of the 32 ready lists and of the delayed list. */
  method InitLists() returns (r: Rings<LinkList>)
    ensures r.Valid() && fresh(r.Repr) && r in r.Repr && r.nodes == map[] && r.place == map[]
    ensures DelayedList in r.heads && (forall n: nat :: ReadyList(n) in r.heads <==> n < MAX_PRIORITIES)
    ensures r.lists.Keys == r.heads.Keys && forall l :: l in r.lists ==> r.lists[l] == []
  {
    r := new Rings<LinkList>();
    hide Rings.Valid;
    for i := 0 to MAX_PRIORITIES
      invariant r.Valid() && fresh(r.Repr) && r in r.Repr && r.nodes == map[] && r.place == map[]
      invariant DelayedList !in r.heads && (forall n: nat :: ReadyList(n) in r.heads <==> n < i)
      invariant r.lists.Keys == r.heads.Keys && forall l :: l in r.lists ==> r.lists[l] == []
    {
      r.AddHead(ReadyList(i));
    }
    r.AddHead(DelayedList);
  }

  class SchedulerState {
    var tasks: map<Tid, Tcb>
    const links: Rings<LinkList>
    const events: Rings<WaitList>
    var readyBitmap: nat
    var tickCount: nat
    var currentTcb: Option<Tid>
    var arrivals: nat
    ghost var ready: map<nat, seq<Tid>>
    ghost var delayed: seq<Tid>
    ghost var waits: map<WaitList, seq<Tid>>

    ghost function State(): Sched
      reads this
    {
      Sched(tasks, ready, Bitmap.Levels(readyBitmap), delayed, waits, tickCount, currentTcb, arrivals)
    }

    ghost function Repr(): set<object>
      reads this, links, events
    {
      {this, links, events} + links.Repr + events.Repr
    }

    /** What no operation on existing tasks and lists changes: the nodes themselves. */
    ghost function Shape(): (map<LinkList, IntrusiveList.Node>, map<nat, IntrusiveList.Node>,
                             map<WaitList, IntrusiveList.Node>, map<nat, IntrusiveList.Node>, set<object>)
      reads this, links, events
    {
      (links.heads, links.nodes, events.heads, events.nodes, Repr())
    }

    ghost predicate Apart()
      reads this, links, events
    {
      links in links.Repr && events in events.Repr && links.Repr !! events.Repr && this !in links.Repr
          && this !in events.Repr
    }

    ghost predicate Mirrors()
      reads this, links, events
    {
      && LinksMirror(State(), links.heads.Keys, links.lists, links.nodes.Keys, links.place)
      && EventsMirror(State(), events.heads.Keys, events.lists, events.nodes.Keys, events.place)
    }

    /** The rings are rings and mirror the state, the bitmap is a 32-bit word, every priority is a level. */
    ghost predicate Valid()
      reads this, links, events, Repr()
    {
      && Apart() && links.Valid() && events.Valid() && Mirrors()
      && Bitmap.Length(readyBitmap) <= 32 && forall t :: t in tasks ==> tasks[t].prio < MAX_PRIORITIES
    }

    /** nimble_scheduler_init, before it creates the idle task. */
    constructor ()
      ensures Valid() && fresh(Repr()) && State() == Sched(map[], map[], {}, [], map[], 0, None, 0)
      ensures events.heads == map[]
    {
      hide LinksMirror, EventsMirror, Bitmap.Levels, Rings.Valid;
      var ls := InitLists();
      var es := new Rings<WaitList>();
      links, events := ls, es;
      tasks, readyBitmap, tickCount, currentTcb, arrivals := map[], 0, 0, None, 0;
      ready, delayed, waits := map[], [], map[];
      new;
      NothingMirrors(State(), links.heads.Keys, links.lists);
    }

    function Task(t: Tid): Tcb
      reads this
    {
      if t in tasks then tasks[t] else NO_TASK
    }

    lemma TaskIs(t: Tid)
      ensures Task(t) == T(State(), t)
    {}

    // ---- list nodes ----------------------------------------------------------------------

    /** The rings have been changed, and the control block of `t` is yet to say so. */
    method Record(t: Tid, c: Tcb, ghost u: Sched)
      requires Apart() && links.Valid() && events.Valid() && Bitmap.Length(readyBitmap) <= 32
      requires LinksMirror(u, links.heads.Keys, links.lists, links.nodes.Keys, links.place)
      requires EventsMirror(u, events.heads.Keys, events.lists, events.nodes.Keys, events.place)
      requires t in tasks && c.prio < MAX_PRIORITIES && forall x :: x in tasks ==> tasks[x].prio < MAX_PRIORITIES
      requires u == State().(tasks := tasks[t := c], ready := u.ready, delayed := u.delayed, waits := u.waits)
      modifies this
      ensures Valid() && Shape() == old(Shape()) && State() == u
      ensures links.place == old(links.place) && events.place == old(events.place)
    {
      hide LinksMirror, EventsMirror, Bitmap.Levels, Rings.Valid;
      tasks := tasks[t := c];
      ready, delayed, waits := u.ready, u.delayed, u.waits;
    }

    /** What the rings will hold without the node of `t`. */
    lemma AfterUnlink(t: Tid)
      requires Valid() && t in tasks
      ensures var s, u := State(), Unlink(State(), t);
        var left := if t in links.place then links.lists[links.place[t] := Without(links.lists[links.place[t]], t)]
            else links.lists;
        && t in links.nodes && u == s.(tasks := tasks[t := tasks[t].(link := Off)], ready := u.ready,
            delayed := u.delayed)
        && LinksMirror(u, links.heads.Keys, left, links.nodes.Keys, links.place - {t})
        && EventsMirror(u, events.heads.Keys, events.lists, events.nodes.Keys, events.place)
    {
      hide LinksMirror, EventsMirror, Bitmap.Levels, Unlink, Rings.Valid;
      UnlinkState(State(), t);
      UnlinkMirrors(State(), t, links.heads.Keys, links.lists, links.nodes.Keys, links.place);
      LinkKeepsEvents(State(), t, events.heads.Keys, events.lists, events.nodes.Keys, events.place);
    }

    /** nimble_list_remove(&tcb->link): the pointers of the node say which list it leaves. */
    method UnlinkNode(t: Tid)
      requires Valid() && t in tasks
      modifies Repr()
      ensures Valid() && Shape() == old(Shape()) && State() == Unlink(old(State()), t) && t !in links.place
    {
      hide LinksMirror, EventsMirror, Bitmap.Levels, Unlink, Rings.Valid;
      ghost var u := Unlink(State(), t);
      AfterUnlink(t);
      links.Remove(t);
      Record(t, tasks[t].(link := Off), u);
    }

    /** nimble_list_remove(&tcb->event_link): from anywhere in its ring, and the others stay in order. */
    method UnlinkEventNode(t: Tid)
      requires Valid() && t in tasks
      modifies Repr()
      ensures Valid() && Shape() == old(Shape()) && State() == UnlinkEvent(old(State()), t) && t !in events.place
      ensures WaitsSorted(old(State())) ==> WaitsSorted(State())
    {
      hide LinksMirror, EventsMirror, Bitmap.Levels, UnlinkEvent, WaitsSorted, Rings.Valid;
      RemovalKeepsOrder(State(), t);
      ghost var s, u := State(), UnlinkEvent(State(), t);
      UnlinkEventState(s, t);
      UnlinkEventMirrors(s, t, events.heads.Keys, events.lists, events.nodes.Keys, events.place);
      EventKeepsLinks(s, t, links.heads.Keys, links.lists, links.nodes.Keys, links.place);
      events.Remove(t);
      Record(t, tasks[t].(event := None), u);
    }

    /** A change to a control block that moves neither of its nodes. */
    method SetTask(t: Tid, c: Tcb)
      requires Valid() && t in tasks && c.prio < MAX_PRIORITIES && c.link == tasks[t].link && c.event == tasks[t].event
      modifies this
      ensures Valid() && Shape() == old(Shape()) && State() == SetT(old(State()), t, c)
      ensures links.place == old(links.place) && events.place == old(events.place)
    {
      hide LinksMirror, EventsMirror, Bitmap.Levels, Rings.Valid;
      FieldsMirror(State(), t, c, links.heads.Keys, links.lists, links.nodes.Keys, links.place,
                   events.heads.Keys, events.lists, events.nodes.Keys, events.place);
      tasks := tasks[t := c];
    }

    /** nimble_list_insert_tail(&ready_lists[p], &tcb->link), and the task is READY. */
    method LinkReady(t: Tid)
      requires Valid() && t in tasks && tasks[t].link == Off
      modifies Repr()
      ensures Valid() && Shape() == old(Shape())
      ensures State() == AddReady(old(State()), t).(bits := old(State()).bits)
    {
      hide LinksMirror, EventsMirror, Bitmap.Levels, AddReady, Rings.Valid;
      ghost var s := State();
      var p := tasks[t].prio;
      AddReadyState(s, t);
      AddReadyMirrors(s, t, links.heads.Keys, links.lists, links.nodes.Keys, links.place);
      AddReadyKeepsEvents(s, t, events.heads.Keys, events.lists, events.nodes.Keys, events.place);
      links.InsertTail(ReadyList(p), t);
      Record(t, tasks[t].(state := Ready, link := OnReady(p)), AddReady(s, t).(bits := s.bits));
    }

    /** nimble_list_insert_tail(&delayed_list, &tcb->link), and the task is BLOCKED. */
    method LinkDelayed(t: Tid, wake: nat)
      requires Valid() && t in tasks && tasks[t].link == Off
      modifies Repr()
      ensures Valid() && Shape() == old(Shape()) && State() == PutOnDelayed(old(State()), t, wake)
    {
      hide LinksMirror, EventsMirror, Bitmap.Levels, Rings.Valid;
      ghost var s := State();
      DelayedMirrors(s, t, wake, links.heads.Keys, links.lists, links.nodes.Keys, links.place);
      DelayedKeepsEvents(s, t, wake, events.heads.Keys, events.lists, events.nodes.Keys, events.place);
      links.InsertTail(DelayedList, t);
      Record(t, tasks[t].(wake := wake, state := Blocked, link := OnDelayed), PutOnDelayed(s, t, wake));
    }

    method SetBitmap(word: nat)
      requires Valid() && Bitmap.Length(word) <= 32
      modifies this
      ensures Valid() && Shape() == old(Shape()) && State() == old(State()).(bits := Bitmap.Levels(word))
      ensures links.place == old(links.place)
    {
      hide LinksMirror, EventsMirror, Bitmap.Levels, Rings.Valid;
      ghost var s := State();
      SameMirrors(s, s.(bits := Bitmap.Levels(word)), links.heads.Keys, links.lists, links.nodes.Keys, links.place,
                  events.heads.Keys, events.lists, events.nodes.Keys, events.place);
      readyBitmap := word;
    }

    // ---- what the rings say about the state ----------------------------------------------

    lemma ReadyRing(n: nat)
      requires Valid() && n < MAX_PRIORITIES
      ensures ReadyList(n) in links.heads && ReadyList(n) in links.lists && links.lists[ReadyList(n)] == R(State(), n)
    {}

    lemma DelayedRing()
      requires Valid()
      ensures DelayedList in links.heads && DelayedList in links.lists && links.lists[DelayedList] == delayed
    {}

    lemma WaitRing(w: WaitList)
      requires Valid() && w in events.heads
      ensures w in events.lists && events.lists[w] == W(State(), w)
    {}

    lemma LinkIs(t: Tid)
      requires Valid() && t in tasks
      ensures t in links.nodes && (t in links.place <==> tasks[t].link != Off)
      ensures t in events.nodes && (t in events.place <==> tasks[t].event != None)
    {}

    // ---- scheduler.c ---------------------------------------------------------------------

    /** highest_set_bit: `31 - clz`, no loop over the lists. */
    method HighestSetBit() returns (h: nat)
      requires Valid() && readyBitmap != 0
      ensures h == TopLevel(State()) && h < MAX_PRIORITIES
    {
      Bitmap.ClzIsLinearScan(readyBitmap);
      Bitmap.LengthIsTopBit(readyBitmap);
      h := 31 - Bitmap.CountLeadingZeros(readyBitmap);
    }

    method AddReadyTask(t: Tid)
      requires Valid() && t in tasks && tasks[t].link == Off
      modifies Repr()
      ensures Valid() && Shape() == old(Shape()) && State() == AddReady(old(State()), t)
    {
      hide Rings.Valid, Bitmap.Levels, Bitmap.Length, Mirrors;
      var p := tasks[t].prio;
      LinkReady(t);
      Bitmap.OrAddsLevel(readyBitmap, p);
      Bitmap.StaysAWord(readyBitmap, p, 32);
      SetBitmap(Bitmap.Or(readyBitmap, p));
    }

    method RemoveTask(t: Tid)
      requires Valid() && t in tasks
      modifies Repr()
      ensures Valid() && Shape() == old(Shape()) && State() == Remove(old(State()), t) && t in tasks
          && tasks[t].link == Off
    {
      hide Rings.Valid, Bitmap.Levels, Bitmap.Length, Mirrors, Unlink;
      var p := tasks[t].prio;
      ghost var s := State();
      UnlinkNode(t);
      UnlinkState(s, t);
      ReadyRing(p);
      var empty := links.IsEmpty(ReadyList(p));
      if empty {
        Bitmap.AndNotRemovesLevel(readyBitmap, p);
        Bitmap.StaysAWord(readyBitmap, p, 32);
        SetBitmap(Bitmap.AndNot(readyBitmap, p));
      }
    }

    method BlockCurrentDelayTask(t: Tid, wake: nat)
      requires Valid() && t in tasks
      modifies Repr()
      ensures Valid() && Shape() == old(Shape()) && State() == BlockCurrentDelay(old(State()), t, wake) && t in tasks
    {
      hide Rings.Valid, Mirrors, Remove;
      RemoveTask(t);
      LinkDelayed(t, wake);
    }

    method PrepareBlockTask(t: Tid, timeout: nat)
      requires Valid() && t in tasks
      modifies Repr()
      ensures Valid() && Shape() == old(Shape()) && State() == PrepareBlock(old(State()), t, timeout) && t in tasks
    {
      hide Rings.Valid, Mirrors, Remove;
      ghost var u := RemoveFrame(State(), t);
      RemoveTask(t);
      if timeout != WAIT_FOREVER {
        LinkDelayed(t, (tickCount + timeout) % U32);
      } else {
        SetTask(t, tasks[t].(state := Blocked));
      }
    }

    /** The end that wake_waiter and the tick share, in the order of wake_waiter. */
    method WakeTask(t: Tid, answer: Status)
      requires Valid() && t in tasks
      modifies Repr()
      ensures Valid() && Shape() == old(Shape()) && State() == MakeReady(old(State()), t, answer) && t in tasks
    {
      hide Rings.Valid, Mirrors, Unlink, UnlinkEvent, AddReady;
      KeepsTask(State(), t);
      UnlinkEventNode(t);
      UnlinkNode(t);
      LinkIs(t);
      SetTask(t, tasks[t].(result := answer, answers := tasks[t].answers + 1));
      AddReadyTask(t);
    }

    /**
     * wake_waiter: in a list in order, the first node is that of the longest waiting of the waiters of highest
     * priority.
     */
    method WakeWaiterOf(w: WaitList) returns (woken: Option<Tid>)
      requires Valid() && Linked(State()) && w in events.heads
      modifies Repr()
      ensures Valid() && Shape() == old(Shape()) && (State(), woken) == WakeWaiter(old(State()), w)
      ensures woken == None <==> W(old(State()), w) == []
      ensures woken.Some? && SortedBy(old(State()), W(old(State()), w)) ==>
        forall t :: t in W(old(State()), w) && t != woken.value ==> Before(old(State()), woken.value, t)
    {
      hide Rings.Valid, Mirrors, MakeReady, T;
      ghost var s := State();
      WaitRing(w);
      var empty := events.IsEmpty(w);
      if empty { return None; }
      var t := events.First(w);
      assert t in W(s, w);
      WakeTask(t, OK);
      return Some(t);
    }

    lemma WaitsNowhere(t: Tid)
      requires Valid() && t in tasks && tasks[t].event == None
      ensures forall w :: t !in W(State(), w)
    {
      forall w ensures t !in W(State(), w) { if w in events.heads { assert t !in events.lists[w]; } }
    }

    lemma InsertionPoint(w: WaitList, t: Tid, stops: nat -> bool)
      requires Valid() && t in tasks && tasks[t].event == None && w in events.heads
      requires forall x: nat :: stops(x) <==> T(State(), x).prio < tasks[t].prio
      ensures w in events.lists && t in events.nodes && t !in events.place
      ensures var s, u := State(), EnqueueWaiter(State(), w, t);
        var q := InsertAt(events.lists[w], FirstStop(events.lists[w], stops), t);
        && EventsMirror(u, events.heads.Keys, events.lists[w := q], events.nodes.Keys, events.place[t := w])
        && LinksMirror(u, links.heads.Keys, links.lists, links.nodes.Keys, links.place)
        && u == s.(tasks := tasks[t := tasks[t].(event := Some(w), arrived := arrivals)], waits := u.waits,
            arrivals := arrivals + 1)
    {
      hide LinksMirror, EventsMirror, Rings.Valid, EnqueueWaiter, FirstStop, InsertAt;
      var s := State();
      StopsBelow(s, W(s, w), stops, tasks[t].prio);
      EnqueueState(s, w, t);
      EnqueueMirrors(s, w, t, stops, events.heads.Keys, events.lists, events.nodes.Keys, events.place);
      EnqueueKeepsLinks(s, w, t, links.heads.Keys, links.lists, links.nodes.Keys, links.place);
    }

    /**
     * The insertion loop of the wait lists: a walk along the ring to the first waiter of strictly lower priority. The
     * newcomer has the highest ticket, so the ring stays in order of priority and, among equals, of arrival.
     */
    method InsertSorted(w: WaitList, t: Tid)
      requires Valid() && t in tasks && tasks[t].event == None && w in events.heads
      modifies Repr()
      ensures Valid() && Shape() == old(Shape()) && State() == EnqueueWaiter(old(State()), w, t) && t in tasks
      ensures WaitsSorted(old(State())) ==> WaitsSorted(State())
    {
      hide LinksMirror, EventsMirror, Bitmap.Levels, Bitmap.Length, Rings.Valid, EnqueueWaiter, InsertWaiter,
           WaitsSorted, FirstStop, InsertAt;
      WaitsNowhere(t);
      InsertionKeepsOrder(State(), w, t);
      ghost var u := EnqueueWaiter(State(), w, t);
      var others, p := tasks, tasks[t].prio;
      var stops := (x: nat) => (if x in others then others[x].prio else 0) < p;
      InsertionPoint(w, t, stops);
      events.InsertBefore(w, t, stops);
      tasks := tasks[t := tasks[t].(event := Some(w), arrived := arrivals)];
      waits, arrivals := u.waits, arrivals + 1;
    }

    method SetCurrent(t: Tid)
      requires Valid()
      modifies this
      ensures Valid() && Shape() == old(Shape()) && State() == old(State()).(cur := Some(t))
    {
      hide LinksMirror, EventsMirror, Bitmap.Levels, Rings.Valid;
      ghost var s := State();
      SameMirrors(s, s.(cur := Some(t)), links.heads.Keys, links.lists, links.nodes.Keys, links.place,
                  events.heads.Keys, events.lists, events.nodes.Keys, events.place);
      currentTcb := Some(t);
    }

    method CountTick()
      requires Valid()
      modifies this
      ensures Valid() && Shape() == old(Shape()) && State() == Advanced(old(State()))
    {
      hide LinksMirror, EventsMirror, Bitmap.Levels, Rings.Valid;
      ghost var s := State();
      SameMirrors(s, Advanced(s), links.heads.Keys, links.lists, links.nodes.Keys, links.place,
                  events.heads.Keys, events.lists, events.nodes.Keys, events.place);
      tickCount := (tickCount + 1) % U32;
    }

    /** The first half of select_next: a task that still runs goes to the tail of its list. */
    method RequeueCurrent()
      requires Valid() && Linked(State()) && AllPlaced(State())
      modifies Repr()
      ensures Valid() && Shape() == old(Shape()) && State() == Requeued(old(State()))
    {
      hide Rings.Valid, Mirrors, AddReady, Linked, AllPlaced, Bitmap.Levels;
      RunningIsOff(State());
      if currentTcb.Some? && Task(currentTcb.value).state == Running { AddReadyTask(currentTcb.value); }
    }

    method SelectNextTask()
      requires Valid() && CanDispatch(State()) && Linked(State()) && AllPlaced(State())
      modifies Repr()
      ensures Valid() && Shape() == old(Shape()) && State() == SelectNext(old(State()))
    {
      hide Rings.Valid, Mirrors, Requeued, TopLevel, Remove, Linked, AllPlaced, Bitmap.Levels;
      ghost var s := State();
      RequeueCurrent();
      ChosenExists(s);
      NonzeroWord(readyBitmap);
      var prio := HighestSetBit();
      ReadyRing(prio);
      var next := links.First(ReadyList(prio));
      RemoveTask(next);
      SetTask(next, tasks[next].(state := Running));
      SetCurrent(next);
    }

    /** The tick: a walk along the delayed list that unlinks due nodes as it goes; the saved successor stays valid. */
    method SysTick()
      requires Valid() && Linked(State()) && AllPlaced(State())
      modifies Repr()
      ensures Valid() && Shape() == old(Shape()) && State() == Tick(old(State()))
    {
      hide Rings.Valid, Mirrors, Linked, AllPlaced, Scanning, ExpireAll, MakeReady, SignedDiff, NoDup, T, Advanced;
      ghost var a, i := Advanced(State()), 0;
      AdvanceKeeps(State());
      TickIs(State());
      CountTick();
      ScanFacts(a);
      DelayedRing();
      var head := links.heads[DelayedList];
      WalkDelayed(0);
      var node := head.next;
      while node != head
        invariant Valid() && Shape() == old(Shape()) && DelayedList in links.heads && head == links.heads[DelayedList]
        invariant i <= |delayed| && node == NodeAt(i)
        invariant Scanning(State(), delayed[i..]) && ExpireAll(State(), delayed[i..]) == ExpireAll(a, a.delayed)
        decreases |delayed| - i
      {
        WalkDelayed(i);
        var next, t := node.next, node.owner;
        ghost var s, q := State(), delayed[i..];
        DueNode(s, q, i);
        TaskIs(t);
        if SignedDiff(tickCount, Task(t).wake) >= 0 {
          NextStays(links.nodes, delayed, head, i);
          WakeTask(t, Timeout);
          DelayedRing();
        } else {
          i := i + 1;
        }
        node := next;
      }
      WalkDelayed(i);
      assert delayed[i..] == [];
      ScanEnds(State());
    }

    /** The node at position `i` of the delayed list, or its head. */
    ghost function NodeAt(i: nat): IntrusiveList.Node
      requires DelayedList in links.heads
      reads this, links
    {
      IntrusiveList.At(links.heads[DelayedList], NodesOf(links.nodes, delayed, links.heads[DelayedList]), i)
    }

    lemma WalkDelayed(i: nat)
      requires Valid() && i <= |delayed|
      ensures DelayedList in links.heads && (i == 0 ==> links.heads[DelayedList].next == NodeAt(0))
      ensures NodeAt(i) == links.heads[DelayedList] <==> i == |delayed|
      ensures i < |delayed| ==> NodeAt(i).owner == delayed[i] && NodeAt(i).next == NodeAt(i + 1)
    {
      hide Mirrors, Rings.Valid;
      DelayedRing();
      links.Walk(DelayedList, i);
    }

    // ---- task.c --------------------------------------------------------------------------

    /** A zeroed control block whose two nodes are initialised. */
    method NewTask(t: Tid, prio: nat)
      requires Valid() && t !in tasks && prio < MAX_PRIORITIES
      modifies Repr()
      ensures Valid() && fresh(Repr() - old(Repr())) && events.heads == old(events.heads)
      ensures State() == SetT(old(State()), t, Tcb(prio, prio, Ready, Off, None, 0, OK, NoCall, 0, 0))
    {
      hide LinksMirror, EventsMirror, Bitmap.Levels, Rings.Valid;
      var c := Tcb(prio, prio, Ready, Off, None, 0, OK, NoCall, 0, 0);
      NewTaskMirrors(State(), t, c, links.heads.Keys, links.lists, links.nodes.Keys, links.place,
                     events.heads.Keys, events.lists, events.nodes.Keys, events.place);
      links.AddNode(t);
      events.AddNode(t);
      tasks := tasks[t := c];
    }

    method Create(t: Tid, prio: nat) returns (status: Status)
      requires Valid() && t !in tasks
      modifies Repr()
      ensures Valid() && fresh(Repr() - old(Repr())) && events.heads == old(events.heads)
      ensures if prio >= MAX_PRIORITIES then State() == old(State()) && status == InvalidArg
              else State() == CreateTask(old(State()), t, prio) && status == OK
    {
      hide Rings.Valid, Mirrors, AddReady, Bitmap.Levels;
      if prio >= MAX_PRIORITIES { return InvalidArg; }
      NewTask(t, prio);
      AddReadyTask(t);
      return OK;
    }

    method Suspend(t: Tid)
      requires Valid() && t in tasks
      modifies Repr()
      ensures Valid() && Shape() == old(Shape()) && State() == SuspendTask(old(State()), t)
    {
      hide Rings.Valid, Mirrors, Bitmap.Levels;
      ghost var u := RemoveFrame(State(), t);
      hide Remove;
      if tasks[t].state == Ready || tasks[t].state == Running {
        if tasks[t].state == Ready { RemoveTask(t); }
        SetTask(t, tasks[t].(state := Suspended));
      }
    }

    method Resume(t: Tid)
      requires Valid() && t in tasks && AllPlaced(State())
      modifies Repr()
      ensures Valid() && Shape() == old(Shape()) && State() == ResumeTask(old(State()), t)
    {
      hide Rings.Valid, Mirrors, AddReady, AllPlaced, Bitmap.Levels;
      if tasks[t].state == Suspended {
        SuspendedIsOff(State(), t);
        AddReadyTask(t);
      }
    }

    // ---- the halves of a call ------------------------------------------------------------

    /** nimble_list_init on the wait list of a new object. */
    method InitWaitList(w: WaitList)
      requires Valid() && w !in events.heads
      modifies Repr()
      ensures Valid() && fresh(Repr() - old(Repr())) && State() == old(State())
      ensures events.heads.Keys == old(events.heads.Keys) + {w}
    {
      hide LinksMirror, EventsMirror, Bitmap.Levels, Rings.Valid;
      NewListMirrors(State(), w, events.heads.Keys, events.lists, events.nodes.Keys, events.place);
      events.AddHead(w);
    }

    /** The block half: onto the wait list, if the call has one, and off the processor. */
    method BlockOnCall(t: Tid, call: Call)
      requires Valid() && t in tasks && tasks[t].event == None
      requires WaitsOn(call).Some? ==> WaitsOn(call).value in events.heads
      modifies Repr()
      ensures Valid() && Shape() == old(Shape()) && State() == BlockOn(old(State()), t, call)
    {
      hide Rings.Valid, Mirrors, EnqueueWaiter, PrepareBlock, BlockCurrentDelay, Bitmap.Levels;
      var w := WaitsOn(call);
      if w.Some? {
        InsertSorted(w.value, t);
        PrepareBlockTask(t, Ticks(call));
      } else {
        BlockCurrentDelayTask(t, (tickCount + Ticks(call)) % U32);
      }
      SetTask(t, tasks[t].(call := call, answers := 0));
    }

    /** The resume half. */
    method LeaveCall(t: Tid)
      requires Valid() && t in tasks
      modifies Repr()
      ensures Valid() && Shape() == old(Shape()) && State() == Leave(old(State()), t)
    {
      hide Rings.Valid, Mirrors, Bitmap.Levels;
      ghost var u := UnlinkEventFrame(State(), t);
      hide UnlinkEvent;
      UnlinkEventNode(t);
      SetTask(t, tasks[t].(call := NoCall, answers := 0));
    }
  }

  function PutOnDelayed(s: Sched, t: Tid, wake: nat): Sched {
    SetT(s, t, T(s, t).(wake := wake, state := Blocked, link := OnDelayed)).(delayed := s.delayed + [t])
  }

  // ---- what each list operation does to the mirrors --------------------------------------

  lemma NothingMirrors(s: Sched, heads: set<LinkList>, lists: map<LinkList, seq<nat>>)
    requires s == Sched(map[], map[], Bitmap.Levels(0), [], map[], 0, None, 0)
    requires lists.Keys == heads && DelayedList in heads
        && (forall n: nat :: ReadyList(n) in heads <==> n < MAX_PRIORITIES)
    requires forall l :: l in lists ==> lists[l] == []
    ensures s.bits == {} && LinksMirror(s, heads, lists, {}, map[]) && EventsMirror(s, {}, map[], {}, map[])
  {
    forall n: nat { Bitmap.ZeroIsClear(n); }
  }

  /** Fields that are no list and no control block do not matter. */
  lemma SameMirrors(s: Sched, u: Sched, heads: set<LinkList>, lists: map<LinkList, seq<nat>>, nodes: set<nat>,
                    place: map<nat, LinkList>, eventHeads: set<WaitList>, eventLists: map<WaitList, seq<nat>>,
                    eventNodes: set<nat>, eventPlace: map<nat, WaitList>)
    requires LinksMirror(s, heads, lists, nodes, place)
        && EventsMirror(s, eventHeads, eventLists, eventNodes, eventPlace)
    requires u.tasks == s.tasks && u.ready == s.ready && u.delayed == s.delayed && u.waits == s.waits
    ensures LinksMirror(u, heads, lists, nodes, place)
        && EventsMirror(u, eventHeads, eventLists, eventNodes, eventPlace)
  {
    assert (forall x :: T(u, x) == T(s, x)) && (forall n :: R(u, n) == R(s, n)) && (forall w :: W(u, w) == W(s, w));
    hide T, R, W;
  }

  lemma UnlinkMirrors(s: Sched, t: Tid, heads: set<LinkList>, lists: map<LinkList, seq<nat>>, nodes: set<nat>,
                      place: map<nat, LinkList>)
    requires LinksMirror(s, heads, lists, nodes, place) && t in s.tasks
    ensures t in nodes && (t in place ==> place[t] in lists)
    ensures var left := if t in place then lists[place[t] := Without(lists[place[t]], t)] else lists;
      LinksMirror(Unlink(s, t), heads, left, nodes, place - {t})
  {
    hide T, R, Without;
    var u := UnlinkFrame(s, t);
  }

  lemma UnlinkState(s: Sched, t: Tid)
    requires t in s.tasks
    ensures Unlink(s, t) == s.(tasks := s.tasks[t := s.tasks[t].(link := Off)], ready := Unlink(s, t).ready,
                               delayed := Unlink(s, t).delayed)
  {
    assert T(s, t).link == Off ==> s.tasks == s.tasks[t := s.tasks[t].(link := Off)];
  }

  lemma LinkKeepsEvents(s: Sched, t: Tid, heads: set<WaitList>, lists: map<WaitList, seq<nat>>, nodes: set<nat>,
                        place: map<nat, WaitList>)
    requires EventsMirror(s, heads, lists, nodes, place) && t in s.tasks
    ensures EventsMirror(Unlink(s, t), heads, lists, nodes, place)
  {
    hide T, W;
    var u := UnlinkFrame(s, t);
  }

  lemma UnlinkEventMirrors(s: Sched, t: Tid, heads: set<WaitList>, lists: map<WaitList, seq<nat>>, nodes: set<nat>,
                           place: map<nat, WaitList>)
    requires EventsMirror(s, heads, lists, nodes, place) && t in s.tasks
    ensures t in nodes && (t in place ==> place[t] in lists)
    ensures var left := if t in place then lists[place[t] := Without(lists[place[t]], t)] else lists;
      EventsMirror(UnlinkEvent(s, t), heads, left, nodes, place - {t})
  {
    hide T, W, Without;
    var u := UnlinkEventFrame(s, t);
  }

  lemma UnlinkEventState(s: Sched, t: Tid)
    requires t in s.tasks
    ensures UnlinkEvent(s, t) == s.(tasks := s.tasks[t := s.tasks[t].(event := None)], waits := UnlinkEvent(s, t).waits)
  {
    assert T(s, t).event == None ==> s.tasks == s.tasks[t := s.tasks[t].(event := None)];
  }

  lemma EventKeepsLinks(s: Sched, t: Tid, heads: set<LinkList>, lists: map<LinkList, seq<nat>>, nodes: set<nat>,
                        place: map<nat, LinkList>)
    requires LinksMirror(s, heads, lists, nodes, place) && t in s.tasks
    ensures LinksMirror(UnlinkEvent(s, t), heads, lists, nodes, place)
  {
    hide T, R;
    var u := UnlinkEventFrame(s, t);
  }

  lemma FieldsMirror(s: Sched, t: Tid, c: Tcb, heads: set<LinkList>, lists: map<LinkList, seq<nat>>, nodes: set<nat>,
                     place: map<nat, LinkList>, eventHeads: set<WaitList>, eventLists: map<WaitList, seq<nat>>,
                     eventNodes: set<nat>, eventPlace: map<nat, WaitList>)
    requires LinksMirror(s, heads, lists, nodes, place)
        && EventsMirror(s, eventHeads, eventLists, eventNodes, eventPlace)
    requires t in s.tasks && c.link == T(s, t).link && c.event == T(s, t).event
    ensures LinksMirror(SetT(s, t, c), heads, lists, nodes, place)
    ensures EventsMirror(SetT(s, t, c), eventHeads, eventLists, eventNodes, eventPlace)
  {
    hide T, R, W;
    var u := SetTFrame(s, t, c);
  }

  lemma InsertionKeepsOrder(s: Sched, w: WaitList, t: Tid)
    requires forall v :: t !in W(s, v)
    ensures SortedKept(s, EnqueueWaiter(s, w, t))
  {
    hide SortedBy, T, W, InsertWaiter, EnqueueWaiter;
    var u := EnqueueFrame(s, w, t);
    if WaitsSorted(s) {
      forall v ensures SortedBy(u, W(u, v)) && forall x :: x in W(u, v) ==> T(u, x).arrived < u.arrivals {
        if v == w { SortedInsert(s, u, W(s, w), t); InsertedMembers(s, W(s, w), t); }
        else { SortedSame(s, u, W(s, v)); }
      }
    }
  }

  lemma InsertedMembers(s: Sched, q: seq<Tid>, t: Tid)
    ensures forall x :: x in InsertWaiter(s, q, t) ==> x == t || x in q
  {}

  lemma RemovalKeepsOrder(s: Sched, t: Tid)
    requires t in s.tasks
    ensures SortedKept(s, UnlinkEvent(s, t))
  {
    hide SortedBy, T, W, Without;
    var u := UnlinkEventFrame(s, t);
    if WaitsSorted(s) {
      forall w ensures SortedBy(u, W(u, w)) {
        SortedWithout(s, W(s, w), t);
        SortedSame(s, u, W(u, w));
      }
    }
  }

  lemma NonzeroWord(w: nat)
    ensures Bitmap.Levels(w) != {} ==> w != 0
  {
    forall n: nat { Bitmap.ZeroIsClear(n); }
  }

  lemma RunningIsOff(s: Sched)
    requires Linked(s) && AllPlaced(s)
    ensures s.cur.Some? ==>
        s.cur.value in s.tasks && (T(s, s.cur.value).state == Running ==> T(s, s.cur.value).link == Off)
  {
    if s.cur.Some? { assert Placed(s, s.cur.value); }
  }

  lemma ChosenExists(s: Sched)
    requires CanDispatch(s) && Linked(s) && AllPlaced(s)
    ensures Chosen(s) in Requeued(s).tasks && R(Requeued(s), TopLevel(Requeued(s))) != []
    ensures Chosen(s) == R(Requeued(s), TopLevel(Requeued(s)))[0] && Requeued(s).bits != {}
  {
    RequeuedLinked(s);
    hide AllPlaced, TopLevel, Requeued, T;
    assert Chosen(s) in R(Requeued(s), TopLevel(Requeued(s)));
  }

  lemma ScanFacts(s: Sched)
    requires Linked(s) && AllPlaced(s)
    ensures Scanning(s, s.delayed) && s.delayed[0..] == s.delayed && NoDup(s.delayed)
  {}

  lemma TickIs(s: Sched)
    ensures Tick(s) == ExpireAll(Advanced(s), Advanced(s).delayed)
  {}

  lemma ScanEnds(s: Sched)
    ensures ExpireAll(s, []) == s
  {}

  /** The node after a node that has left the list is where that one was. */
  lemma NextStays(nodes: map<nat, IntrusiveList.Node>, q: seq<Tid>, head: IntrusiveList.Node, i: nat)
    requires i < |q|
    ensures IntrusiveList.At(head, NodesOf(nodes, q, head), i + 1)
         == IntrusiveList.At(head, NodesOf(nodes, q[..i] + q[i + 1..], head), i)
  {}

  /** One node of the scan, as the loop meets it. */
  lemma DueNode(s: Sched, q: seq<Tid>, i: nat)
    requires Scanning(s, q) && q != [] && i < |s.delayed| && q == s.delayed[i..]
    ensures q[0] in s.tasks && Scanning(ExpireHead(s, q[0]), q[1..]) && q[0] == s.delayed[i]
    ensures ExpireAll(s, q) == ExpireAll(ExpireHead(s, q[0]), q[1..])
    ensures Due(s, q[0]) ==> ExpireHead(s, q[0]).delayed == s.delayed[..i] + s.delayed[i + 1..]
                             && q[1..] == ExpireHead(s, q[0]).delayed[i..]
    ensures !Due(s, q[0]) ==> ExpireHead(s, q[0]) == s && s.delayed[i + 1..] == q[1..]
  {
    var u := ExpireHeadFrame(s, q);
    var v := HeadStep(s, q);
    hide Linked, AllPlaced, MakeReady, Due, T, R, W;
    IndexHere(s.delayed, i);
  }

  lemma IndexHere(q: seq<Tid>, i: nat)
    requires NoDup(q) && i < |q|
    ensures Without(q, q[i]) == q[..i] + q[i + 1..] && (q[..i] + q[i + 1..])[i..] == q[i + 1..]
  {
    assert IndexOf(q, q[i]) == i;
  }

  lemma SuspendedIsOff(s: Sched, t: Tid)
    requires AllPlaced(s) && t in s.tasks && T(s, t).state == Suspended
    ensures T(s, t).link == Off
  {
    assert Placed(s, t);
  }

  lemma NewTaskMirrors(s: Sched, t: Tid, c: Tcb, heads: set<LinkList>, lists: map<LinkList, seq<nat>>, nodes: set<nat>,
                       place: map<nat, LinkList>, eventHeads: set<WaitList>, eventLists: map<WaitList, seq<nat>>,
                       eventNodes: set<nat>, eventPlace: map<nat, WaitList>)
    requires LinksMirror(s, heads, lists, nodes, place)
        && EventsMirror(s, eventHeads, eventLists, eventNodes, eventPlace)
    requires t !in s.tasks && c.link == Off && c.event == None
    ensures t !in nodes && t !in eventNodes
    ensures LinksMirror(SetT(s, t, c), heads, lists, nodes + {t}, place)
    ensures EventsMirror(SetT(s, t, c), eventHeads, eventLists, eventNodes + {t}, eventPlace)
  {
    hide T, R, W;
    var u := SetTFrame(s, t, c);
  }

  lemma NewListMirrors(s: Sched, w: WaitList, heads: set<WaitList>, lists: map<WaitList, seq<nat>>, nodes: set<nat>,
                       place: map<nat, WaitList>)
    requires EventsMirror(s, heads, lists, nodes, place) && w !in heads
    ensures EventsMirror(s, heads + {w}, lists[w := []], nodes, place)
  {
    hide T, W;
  }

  /** Unlinking forgets no task. */
  lemma KeepsTask(s: Sched, t: Tid)
    requires t in s.tasks
    ensures t in UnlinkEvent(s, t).tasks && t in Unlink(UnlinkEvent(s, t), t).tasks
    ensures forall c :: t in AddReady(SetT(Unlink(UnlinkEvent(s, t), t), t, c), t).tasks
  {}

  /** The walk of the insertion loop stops where the sorted position is. */
  lemma {:induction false} StopsBelow(s: Sched, q: seq<Tid>, stops: nat -> bool, p: nat)
    requires forall x: nat :: stops(x) <==> T(s, x).prio < p
    ensures FirstStop(q, stops) == FirstBelow(Keys(s, q), p)
  {
    if q != [] {
      assert Keys(s, q)[1..] == Keys(s, q[1..]);
      StopsBelow(s, q[1..], stops, p);
    }
  }

  lemma EnqueueState(s: Sched, w: WaitList, t: Tid)
    requires t in s.tasks
    ensures EnqueueWaiter(s, w, t) == s.(tasks := s.tasks[t := s.tasks[t].(event := Some(w), arrived := s.arrivals)],
                                         waits := EnqueueWaiter(s, w, t).waits, arrivals := s.arrivals + 1)
  {}

  lemma EnqueueMirrors(s: Sched, w: WaitList, t: Tid, stops: nat -> bool, heads: set<WaitList>,
                       lists: map<WaitList, seq<nat>>, nodes: set<nat>, place: map<nat, WaitList>)
    requires EventsMirror(s, heads, lists, nodes, place) && t in s.tasks && T(s, t).event == None && w in heads
    requires FirstStop(W(s, w), stops) == FirstBelow(Keys(s, W(s, w)), T(s, t).prio)
    ensures w in lists && t in nodes && t !in place
    ensures var q := InsertAt(lists[w], FirstStop(lists[w], stops), t);
      EventsMirror(EnqueueWaiter(s, w, t), heads, lists[w := q], nodes, place[t := w])
  {
    hide T, W, EnqueueWaiter, Keys, FirstBelow, FirstStop, InsertAt;
    var u := EnqueueFrame(s, w, t);
  }

  lemma EnqueueKeepsLinks(s: Sched, w: WaitList, t: Tid, heads: set<LinkList>, lists: map<LinkList, seq<nat>>,
                          nodes: set<nat>, place: map<nat, LinkList>)
    requires LinksMirror(s, heads, lists, nodes, place) && t in s.tasks
    ensures LinksMirror(EnqueueWaiter(s, w, t), heads, lists, nodes, place)
  {
    hide T, R, EnqueueWaiter;
    var u := EnqueueFrame(s, w, t);
  }

  lemma AddReadyMirrors(s: Sched, t: Tid, heads: set<LinkList>, lists: map<LinkList, seq<nat>>, nodes: set<nat>,
                        place: map<nat, LinkList>)
    requires LinksMirror(s, heads, lists, nodes, place) && t in s.tasks && T(s, t).link == Off
        && T(s, t).prio < MAX_PRIORITIES
    ensures var l := ReadyList(T(s, t).prio); l in heads && l in lists && t in nodes && t !in place
    ensures var l := ReadyList(T(s, t).prio);
      LinksMirror(AddReady(s, t).(bits := s.bits), heads, lists[l := lists[l] + [t]], nodes, place[t := l])
  {
    var u := AddReadyFrame(s, t);
    var v := AddReady(s, t).(bits := s.bits);
    assert (forall x :: T(v, x) == T(u, x)) && (forall n :: R(v, n) == R(u, n));
    hide T, R, AddReady;
  }

  lemma AddReadyState(s: Sched, t: Tid)
    requires t in s.tasks
    ensures var p := s.tasks[t].prio;
      AddReady(s, t) == s.(tasks := s.tasks[t := s.tasks[t].(state := Ready, link := OnReady(p))],
                           ready := s.ready[p := R(s, p) + [t]], bits := s.bits + {p})
  {}

  lemma AddReadyKeepsEvents(s: Sched, t: Tid, heads: set<WaitList>, lists: map<WaitList, seq<nat>>, nodes: set<nat>,
                            place: map<nat, WaitList>)
    requires EventsMirror(s, heads, lists, nodes, place) && t in s.tasks
    ensures EventsMirror(AddReady(s, t).(bits := s.bits), heads, lists, nodes, place)
  {
    var u := AddReadyFrame(s, t);
    var v := AddReady(s, t).(bits := s.bits);
    assert (forall x :: T(v, x) == T(u, x)) && (forall w :: W(v, w) == W(u, w));
    hide T, W, AddReady;
  }

  lemma DelayedMirrors(s: Sched, t: Tid, wake: nat, heads: set<LinkList>, lists: map<LinkList, seq<nat>>,
                       nodes: set<nat>, place: map<nat, LinkList>)
    requires LinksMirror(s, heads, lists, nodes, place) && t in s.tasks && T(s, t).link == Off
    ensures DelayedList in heads && DelayedList in lists && t in nodes && t !in place
    ensures LinksMirror(PutOnDelayed(s, t, wake), heads, lists[DelayedList := lists[DelayedList] + [t]], nodes,
                        place[t := DelayedList])
  {
    var c := T(s, t).(wake := wake, state := Blocked, link := OnDelayed);
    var u := SetTFrame(s, t, c);
    var v := PutOnDelayed(s, t, wake);
    assert (forall x :: T(v, x) == T(u, x)) && (forall n :: R(v, n) == R(u, n));
    hide T, R, PutOnDelayed, SetT;
  }

  lemma DelayedKeepsEvents(s: Sched, t: Tid, wake: nat, heads: set<WaitList>, lists: map<WaitList, seq<nat>>,
                           nodes: set<nat>, place: map<nat, WaitList>)
    requires EventsMirror(s, heads, lists, nodes, place) && t in s.tasks
    ensures EventsMirror(PutOnDelayed(s, t, wake), heads, lists, nodes, place)
  {
    var c := T(s, t).(wake := wake, state := Blocked, link := OnDelayed);
    var u := SetTFrame(s, t, c);
    var v := PutOnDelayed(s, t, wake);
    assert (forall x :: T(v, x) == T(u, x)) && (forall w :: W(v, w) == W(u, w));
    hide T, W, PutOnDelayed, SetT;
  }
}

/**
 * timer.c in place: the active list is a ring of the timers' nodes on the heap; the insertion loop, start, stop and
 * reset, the wait of the service task and its drain loop work on the pointers.
 */
module TimerCode {
  import opened Base
  import opened Sequences
  import opened Rings
  import opened Timers

  datatype ActiveList = ActiveTimers

  ghost predicate OneRing(timers: set<Id>, heads: set<ActiveList>, lists: map<ActiveList, seq<Id>>, nodes: set<Id>,
                          place: map<Id, ActiveList>) {
    && heads == {ActiveTimers} == lists.Keys && nodes == timers && place.Keys <= timers
    && forall id :: id in place <==> id in lists[ActiveTimers]
  }

  /** Each timer of `which` is marked active exactly if it is in the list. */
  ghost predicate Marked(v: Service, which: set<Id>) {
    forall id :: id in which ==> (Tm(v, id).active <==> id in v.active)
  }

  class TimerList {
    var timers: map<Id, Timer>
    const ring: Rings<ActiveList>
    var inserted: nat

    ghost function State(): Service
      reads this, ring
    {
      Service(timers, if ActiveTimers in ring.lists then ring.lists[ActiveTimers] else [], inserted)
    }

    ghost function Repr(): set<object>
      reads this, ring
    {
      {this, ring} + ring.Repr
    }

    /** One ring, with a node for each timer. */
    ghost predicate Linked()
      reads this, ring, ring.Repr
    {
      && ring in ring.Repr && this !in ring.Repr && ring.Valid()
      && OneRing(timers.Keys, ring.heads.Keys, ring.lists, ring.nodes.Keys, ring.place)
    }

    /** And a timer is marked active exactly while its node is on the ring. */
    ghost predicate Valid()
      reads this, ring, ring.Repr
    {
      Linked() && Marked(State(), timers.Keys)
    }

    lemma RingIs()
      requires Linked()
      ensures ActiveTimers in ring.heads && ActiveTimers in ring.lists && ring.lists[ActiveTimers] == State().active
      ensures ring.nodes.Keys == timers.Keys && NoDup(State().active)
      ensures forall id :: (id in State().active <==> id in ring.place) && (id in ring.place ==> id in timers)
    {
      ring.Distinct(ActiveTimers);
    }

    function Get(id: Id): Timer
      reads this
    {
      if id in timers then timers[id] else NO_TIMER
    }

    /** nimble_timer_service_start, as far as the list is concerned. */
    constructor ()
      ensures Valid() && fresh(Repr()) && State() == Service(map[], [], 0)
    {
      hide Rings.Valid;
      var r := new Rings<ActiveList>();
      r.AddHead(ActiveTimers);
      timers, ring, inserted := map[], r, 0;
    }

    /**
     * nimble_timer_init: the timer is on no list, and the list and the others are as they were; unless the timer was
     * running, in which case no loop over the list ends any more.
     */
    method Init(id: Id, period: nat, periodic: bool)
      requires Valid()
      modifies Repr()
      ensures ActiveTimers in ring.heads && fresh(Repr() - old(Repr()))
      ensures if old(Get(id)).active then ring.Owned() && ring.Lost(ActiveTimers) else Valid()
      ensures Tm(State(), id) == Timer(period, periodic, false, 0, 0)
      ensures State().timers.Keys == old(State()).timers.Keys + {id} && forall x :: x != id ==>
          Tm(State(), x) == Tm(old(State()), x)
      ensures State().active == old(State()).active
      ensures !old(Get(id)).active ==> forall now :: ListOk(old(State()), now) ==> ListOk(State(), now)
    {
      hide Rings.Valid, Rings.Lost, ListOk, NoDup;
      ghost var v := State();
      RingIs();
      InitNode(id);
      timers := timers[id := Timer(period, periodic, false, 0, 0)];
      if !Tm(v, id).active { InitKeepsList(v, State(), id); }
    }

    /** nimble_list_init on the node of the timer. */
    method InitNode(id: Id)
      requires Linked()
      modifies ring.Repr
      ensures ring in ring.Repr && fresh(ring.Repr - old(ring.Repr)) && ring.heads == old(ring.heads)
      ensures ring.nodes.Keys == old(ring.nodes).Keys + {id}
      ensures ring.lists == old(ring.lists) && ring.place == old(ring.place)
      ensures if id in ring.place then ActiveTimers in ring.heads && ring.Owned() && ring.Lost(ActiveTimers)
              else ring.Valid()
    {
      hide Rings.Valid, Rings.Lost;
      if id !in timers { ring.AddNode(id); }
      else {
        if id in ring.place { OneList(ring.place[id]); }
        ring.Init(id);
      }
    }

    /** insert_sorted_by_expiry, for a timer that is off the list and gets its new expiry. */
    method InsertSorted(id: Id, expiry: nat)
      requires Linked() && id in timers && id !in State().active && Marked(State(), timers.Keys - {id})
      modifies Repr()
      ensures Valid() && Repr() == old(Repr()) && State() == Insert(old(State()), id, expiry)
    {
      hide Rings.Valid, OneRing, Marked, Insert, FirstStop, InsertAt, SignedDiff;
      RingIs();
      var others := timers;
      var stops := (x: Id) => SignedDiff(expiry, (if x in others then others[x] else NO_TIMER).expiry) < 0;
      InsertionPoint(State(), id, expiry, stops);
      InsertionMarks(State(), id, expiry, stops, ring.heads.Keys, ring.lists, ring.nodes.Keys, ring.place);
      ring.InsertBefore(ActiveTimers, id, stops);
      timers := timers[id := timers[id].(active := true, expiry := expiry, serial := inserted)];
      inserted := inserted + 1;
    }

    /** The critical section of nimble_timer_start; the caller gives the semaphore if the timer is the new head. */
    method StartTimer(id: Id, now: nat) returns (becameNewHead: bool)
      requires Valid() && id in timers
      modifies Repr()
      ensures Valid() && Repr() == old(Repr()) && State() == Start(old(State()), id, now)
      ensures Starts(old(State()), State(), id, old(Get(id)).period, now)
      ensures State().active != [] && (becameNewHead <==> State().active[0] == id)
    {
      hide Rings.Valid, OneRing, Marked, Insert, Without, SignedDiff, Starts, NoDup;
      RingIs();
      StartSets(State(), id, now);
      DetachedMarks(State(), id);
      var expiry := (now + timers[id].period) % U32;
      InsertDetached(State(), id, expiry);
      if timers[id].active { Detach(id); }
      InsertSorted(id, expiry);
      RingIs();
      var first := ring.First(ActiveTimers);
      becameNewHead := first == id;
    }

    /** nimble_list_remove(&timer->link). */
    method Detach(id: Id)
      requires Linked() && id in timers
      modifies ring.Repr
      ensures Linked() && Repr() == old(Repr()) && ring.place == old(ring.place) - {id}
      ensures State() == old(State()).(active := Without(old(State()).active, id))
    {
      hide Rings.Valid, Without, NoDup;
      ring.Distinct(ActiveTimers);
      ghost var q := ring.lists[ActiveTimers];
      WithoutNoDup(q, id);
      if id in ring.place { OneList(ring.place[id]); }
      ring.Remove(id);
    }

    /** nimble_timer_stop: the node leaves the ring, the others stay in order. */
    method StopTimer(id: Id)
      requires Valid() && id in timers
      modifies Repr()
      ensures Valid() && Repr() == old(Repr()) && State() == Stop(old(State()), id) && id !in State().active
      ensures Stops(old(State()), State(), id)
      ensures forall now :: ListOk(old(State()), now) ==> ListOk(State(), now)
    {
      hide Rings.Valid, OneRing, Marked, Without, ListOk, Stops;
      RingIs();
      StopSets(State(), id);
      DetachedMarks(State(), id);
      forall now: nat | ListOk(State(), now) { StopKeepsList(State(), id, now); }
      if timers[id].active {
        Detach(id);
        timers := timers[id := timers[id].(active := false)];
        assert timers.Keys == old(timers.Keys);
      }
    }

    /** nimble_timer_reset: a new period, then a start. */
    method ResetTimer(id: Id, period: nat, now: nat) returns (becameNewHead: bool)
      requires Valid() && id in timers
      modifies Repr()
      ensures Valid() && Repr() == old(Repr()) && State() == Start(SetPeriod(old(State()), id, period), id, now)
      ensures Starts(old(State()), State(), id, period, now)
      ensures State().active != [] && (becameNewHead <==> State().active[0] == id)
    {
      hide Rings.Valid, Start, Starts, NoDup;
      RingIs();
      ResetSets(State(), id, period, now);
      timers := timers[id := timers[id].(period := period)];
      becameNewHead := StartTimer(id, now);
    }

    /** How long the service task may sleep, from the head of the ring alone. */
    method ComputeWait(now: nat) returns (wait: nat)
      requires Valid()
      ensures wait == WaitTicks(State(), now)
    {
      hide Rings.Valid, SignedDiff;
      var empty := ring.IsEmpty(ActiveTimers);
      if empty { return WAIT_FOREVER; }
      var head := ring.First(ActiveTimers);
      var delta := SignedDiff(Get(head).expiry, now);
      return if delta > 0 then delta else NO_WAIT;
    }

    /** One pass over a due head: unlink it, then reschedule or deactivate it. */
    method FireOne(now: nat) returns (head: Id)
      requires Valid() && State().active != []
      modifies Repr()
      ensures Valid() && Repr() == old(Repr()) && State() == FireHead(old(State()), now)
          && head == old(State()).active[0]
    {
      hide Rings.Valid, OneRing, Marked, Insert, Without, SignedDiff;
      ghost var v := State();
      RingIs();
      head := ring.First(ActiveTimers);
      WithoutHead(v.active);
      DetachedMarks(v, head);
      assert head in v.active;
      Detach(head);
      if timers[head].periodic {
        var next := (timers[head].expiry + timers[head].period) % U32;
        if SignedDiff(next, now) < 0 {
          next := (now + timers[head].period) % U32;
        }
        InsertDetached(v, head, next);
        InsertSorted(head, next);
      } else {
        timers := timers[head := timers[head].(active := false)];
        assert timers.Keys == old(timers.Keys);
      }
    }

    /** The drain loop while the tick stands still; `fired` is the order in which the callbacks are called. */
    method DrainDue(now: nat) returns (fired: seq<Id>)
      requires Valid() && Drainable(State(), now)
      modifies Repr()
      ensures Valid() && (State(), fired) == Drain(old(State()), now) && Drained(old(State()), State(), fired, now)
    {
      hide Rings.Valid, Drainable, FireHead, Drain, Lead, NextExpiry, SignedDiff;
      ghost var v := State();
      DrainComplete(v, now);
      fired := [];
      assert fired + Drain(v, now).1 == Drain(v, now).1;
      var due := HeadIsDue(now);
      while due
        invariant Valid() && Repr() == old(Repr()) && Drainable(State(), now) && due == HeadDue(State(), now)
        invariant Drain(v, now) == (Drain(State(), now).0, fired + Drain(State(), now).1)
        decreases TotalTurns(State(), State().active, now)
      {
        ghost var u := State();
        PassFacts(u, now);
        var head := FireOne(now);
        assert fired + ([head] + Drain(State(), now).1) == (fired + [head]) + Drain(State(), now).1;
        fired := fired + [head];
        due := HeadIsDue(now);
      }
      DrainEnds(State(), now);
      assert fired + [] == fired;
    }

    /** The two tests that end the drain loop. */
    method HeadIsDue(now: nat) returns (due: bool)
      requires Valid()
      ensures due == HeadDue(State(), now)
    {
      hide Rings.Valid, SignedDiff;
      var empty := ring.IsEmpty(ActiveTimers);
      if empty { return false; }
      var head := ring.First(ActiveTimers);
      return SignedDiff(Get(head).expiry, now) <= 0;
    }
  }

  lemma OneList(l: ActiveList)
    ensures l == ActiveTimers
  {}

  lemma InitKeepsList(v: Service, u: Service, id: Id)
    requires id in v.timers ==> !Tm(v, id).active
    requires u.active == v.active && u.inserted == v.inserted && u.timers.Keys == v.timers.Keys + {id}
        && !Tm(u, id).active
    requires forall x :: x != id ==> Tm(u, x) == Tm(v, x)
    ensures forall now :: ListOk(v, now) ==> ListOk(u, now)
  {
    hide Lead, Tm, NoDup;
    forall now: nat | ListOk(v, now) ensures ListOk(u, now) {
      assert id !in v.active;
      SoonerSame(v, u, v.active, id, now);
      SortedSame(v, u, v.active, now, now);
    }
  }

  /** The walk of the insertion loop stops at the first timer that expires strictly later. */
  lemma {:induction false} StopsLater(v: Service, q: seq<Id>, stops: Id -> bool, expiry: nat)
    requires forall x :: stops(x) <==> SignedDiff(expiry, Tm(v, x).expiry) < 0
    ensures FirstStop(q, stops) == FirstLater(v, q, expiry)
  {
    if q != [] { StopsLater(v, q[1..], stops, expiry); }
  }

  lemma InsertionPoint(v: Service, id: Id, expiry: nat, stops: Id -> bool)
    requires id !in v.active && id in v.timers
    requires forall x :: stops(x) <==> SignedDiff(expiry, Tm(v, x).expiry) < 0
    ensures var q := InsertAt(v.active, FirstStop(v.active, stops), id);
      && Insert(v, id, expiry) ==
          Service(v.timers[id := v.timers[id].(active := true, expiry := expiry, serial := v.inserted)],
                                          q, v.inserted + 1)
      && forall x :: x in q <==> x == id || x in v.active
  {
    StopsLater(v, v.active, stops, expiry);
    var i := FirstStop(v.active, stops);
    assert InsertAt(v.active, i, id)[i] == id;
  }

  lemma InsertionMarks(v: Service, id: Id, expiry: nat, stops: Id -> bool, heads: set<ActiveList>,
                       lists: map<ActiveList, seq<Id>>, nodes: set<Id>, place: map<Id, ActiveList>)
    requires OneRing(v.timers.Keys, heads, lists, nodes, place) && lists[ActiveTimers] == v.active && id in v.timers
    requires id !in v.active && Marked(v, v.timers.Keys - {id})
    requires forall x :: stops(x) <==> SignedDiff(expiry, Tm(v, x).expiry) < 0
    ensures var q, u := InsertAt(v.active, FirstStop(v.active, stops), id), Insert(v, id, expiry);
      OneRing(u.timers.Keys, heads, lists[ActiveTimers := q], nodes, place[id := ActiveTimers])
          && Marked(u, u.timers.Keys)
  {
    hide SignedDiff, InsertAt, FirstStop;
    InsertionPoint(v, id, expiry, stops);
  }

  lemma DetachedMarks(v: Service, id: Id)
    requires Marked(v, v.timers.Keys) && NoDup(v.active) && id in v.timers
    ensures id !in Without(v.active, id) && (!Tm(v, id).active ==> id !in v.active)
    ensures Marked(v, v.timers.Keys - {id}) && Marked(v.(active := Without(v.active, id)), v.timers.Keys - {id})
    ensures Marked(v.(timers := v.timers[id := v.timers[id].(active := false)], active := Without(v.active, id)),
        v.timers.Keys)
  {
    WithoutNoDup(v.active, id);
    hide NoDup, Without;
  }

  /** Insertion takes the timer off the list first, so that it may be off already. */
  lemma InsertDetached(v: Service, id: Id, expiry: nat)
    requires NoDup(v.active)
    ensures Insert(v.(active := Without(v.active, id)), id, expiry) == Insert(v, id, expiry)
    ensures Insert(v, id, expiry).active != []
  {
    var u, q := v.(active := Without(v.active, id)), Without(v.active, id);
    WithoutNoDup(v.active, id);
    SameWalk(v, u, q, expiry);
    var w, r, i := InsertFrame(v, id, expiry);
  }

  lemma {:induction false} SameWalk(v: Service, u: Service, q: seq<Id>, expiry: nat)
    requires u.timers == v.timers
    ensures FirstLater(u, q, expiry) == FirstLater(v, q, expiry)
  {
    if q != [] { SameWalk(v, u, q[1..], expiry); }
  }

  lemma PassFacts(v: Service, now: nat)
    requires Drainable(v, now) && HeadDue(v, now)
    ensures v.active != [] && Drainable(FireHead(v, now), now)
    ensures TotalTurns(FireHead(v, now), FireHead(v, now).active, now) < TotalTurns(v, v.active, now)
    ensures Drain(v, now) == (Drain(FireHead(v, now), now).0, [v.active[0]] + Drain(FireHead(v, now), now).1)
  {
    DrainUnfolds(v, now);
    DrainableFacts(v, now);
    hide FireHead, ListOk;
    FireLightens(v, now);
  }

  lemma DrainEnds(v: Service, now: nat)
    requires Drainable(v, now) && !HeadDue(v, now)
    ensures Drain(v, now) == (v, [])
  {}
}

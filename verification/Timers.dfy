/**
 * timer.c as functions on the timer service's own data: the active list sorted by wrapped expiry,
 * start, stop and reset, the wait computed before sleeping, and the drain loop.
 */
module Timers {
  import opened Base
  import opened Sequences

  type Id = nat

  /** `serial` is the ticket of the last insertion into the active list. */
  datatype Timer = Timer(period: nat, periodic: bool, active: bool, expiry: nat, serial: nat)

  datatype Service = Service(timers: map<Id, Timer>, active: seq<Id>, inserted: nat)

  const NO_TIMER := Timer(0, false, false, 0, 0)

  function Tm(v: Service, id: Id): Timer { if id in v.timers then v.timers[id] else NO_TIMER }

  /** The ticks until a timer expires, as the kernel computes them; negative when it is overdue. */
  function Lead(v: Service, id: Id, now: nat): int { SignedDiff(Tm(v, id).expiry, now) }

  // ---- timer.c ---------------------------------------------------------------------------

  /** Where the insertion loop stops: at the first timer that expires strictly later. */
  function FirstLater(v: Service, q: seq<Id>, expiry: nat): (i: nat)
    ensures i <= |q|
    ensures forall j :: 0 <= j < i ==> SignedDiff(expiry, Tm(v, q[j]).expiry) >= 0
    ensures i < |q| ==> SignedDiff(expiry, Tm(v, q[i]).expiry) < 0
  {
    if q == [] || SignedDiff(expiry, Tm(v, q[0]).expiry) < 0 then 0 else 1 + FirstLater(v, q[1..], expiry)
  }

  /** The timer, off the list, gets an expiry and goes to its place. */
  function Insert(v: Service, id: Id, expiry: nat): Service {
    var q := Without(v.active, id);
    v.(timers := v.timers[id := Tm(v, id).(active := true, expiry := expiry, serial := v.inserted)],
       active := InsertAt(q, FirstLater(v, q, expiry), id), inserted := v.inserted + 1)
  }

  function Start(v: Service, id: Id, now: nat): Service {
    Insert(v, id, (now + Tm(v, id).period) % U32)
  }

  function Stop(v: Service, id: Id): Service {
    if Tm(v, id).active then
      v.(timers := v.timers[id := Tm(v, id).(active := false)], active := Without(v.active, id))
    else v
  }

  function SetPeriod(v: Service, id: Id, period: nat): Service {
    v.(timers := v.timers[id := Tm(v, id).(period := period)])
  }

  function WaitTicks(v: Service, now: nat): nat {
    if v.active == [] then WAIT_FOREVER
    else if Lead(v, v.active[0], now) > 0 then Lead(v, v.active[0], now)
    else NO_WAIT
  }

  predicate HeadDue(v: Service, now: nat) { v.active != [] && Lead(v, v.active[0], now) <= 0 }

  /** One period after the previous expiry, or after now if that has been missed too. */
  function NextExpiry(t: Timer, now: nat): nat {
    var next := (t.expiry + t.period) % U32;
    if SignedDiff(next, now) < 0 then (now + t.period) % U32 else next
  }

  /** The critical section of one pass of the drain loop, when the head is due. */
  function FireHead(v: Service, now: nat): Service
    requires v.active != []
  {
    var id := v.active[0];
    if Tm(v, id).periodic then Insert(v, id, NextExpiry(Tm(v, id), now))
    else v.(timers := v.timers[id := Tm(v, id).(active := false)], active := v.active[1..])
  }

  // ---- wrapped clocks --------------------------------------------------------------------

  /** A number in the signed range that is congruent to the difference is what the cast computes. */
  lemma SignedDiffIs(a: nat, b: nat, x: int, q: int)
    requires -HALF <= x < HALF && a - b == x + U32 * q
    ensures SignedDiff(a, b) == x
  {
    ModShift(x, q);
  }

  lemma SignedDiffHas(a: nat, b: nat) returns (q: int)
    ensures a - b == SignedDiff(a, b) + U32 * q && -HALF <= SignedDiff(a, b) < HALF
  {
    q := (a as int - b as int) / U32;
    if SignedDiff(a, b) < 0 { q := q + 1; }
  }

  /** Comparing two expiries is comparing their leads, while these are less than 2^31 apart. */
  lemma ExpiriesCompare(a: nat, b: nat, now: nat)
    requires -HALF <= SignedDiff(a, now) - SignedDiff(b, now) < HALF
    ensures SignedDiff(a, b) == SignedDiff(a, now) - SignedDiff(b, now)
  {
    var p := SignedDiffHas(a, now);
    var q := SignedDiffHas(b, now);
    SignedDiffIs(a, b, SignedDiff(a, now) - SignedDiff(b, now), p - q);
  }

  /** One tick brings an expiry one tick closer, short of the end of the signed range. */
  lemma LeadTicks(e: nat, now: nat)
    requires SignedDiff(e, now) > -HALF
    ensures SignedDiff(e, (now + 1) % U32) == SignedDiff(e, now) - 1
  {
    var q := SignedDiffHas(e, now);
    var c := (now + 1) / U32;
    assert now + 1 == U32 * c + (now + 1) % U32;
    SignedDiffIs(e, (now + 1) % U32, SignedDiff(e, now) - 1, q + c);
  }

  // ---- the active list -------------------------------------------------------------------

  /** Any two leads are less than half the clock apart. */
  ghost predicate Spans(v: Service, now: nat) {
    forall a, b :: a in v.active && b in v.active ==> Lead(v, a, now) - Lead(v, b, now) < HALF
  }

  /** And nothing is so overdue that the next tick takes it out of the signed range. */
  ghost predicate InWindow(v: Service, now: nat) {
    Spans(v, now) && forall a :: a in v.active ==> Lead(v, a, now) > -HALF
  }

  /** `a` fires before `b`: it expires earlier, or at the same tick and was inserted earlier. */
  predicate Sooner(v: Service, a: Id, b: Id, now: nat) {
    Lead(v, a, now) < Lead(v, b, now) || (Lead(v, a, now) == Lead(v, b, now) && Tm(v, a).serial < Tm(v, b).serial)
  }

  ghost predicate SortedFrom(v: Service, q: seq<Id>, now: nat) {
    forall i, j :: 0 <= i < j < |q| ==> Sooner(v, q[i], q[j], now)
  }

  /** The list holds exactly the active timers, once each, soonest first. */
  ghost predicate ListOk(v: Service, now: nat) {
    && NoDup(v.active) && SortedFrom(v, v.active, now)
    && (forall id :: id in v.active <==> id in v.timers && Tm(v, id).active)
    && (forall id :: id in v.active ==> Tm(v, id).serial < v.inserted)
  }

  lemma SortedSame(v: Service, u: Service, q: seq<Id>, now: nat, later: nat)
    requires SortedFrom(v, q, now)
    requires forall a, b :: a in q && b in q && Sooner(v, a, b, now) ==> Sooner(u, a, b, later)
    ensures SortedFrom(u, q, later)
  {
    hide Sooner;
    forall i, j | 0 <= i < j < |q| ensures Sooner(u, q[i], q[j], later) { assert q[i] in q && q[j] in q; }
  }

  lemma SortedWithout(v: Service, q: seq<Id>, id: Id, now: nat)
    requires SortedFrom(v, q, now)
    ensures SortedFrom(v, Without(q, id), now)
  {
    hide Sooner;
    if id in q { WithoutKeepsOrder(q, id); }
  }

  /** The insertion loop puts a timer behind all that expire no later. */
  lemma SortedInsert(u: Service, q: seq<Id>, i: nat, id: Id, now: nat)
    requires SortedFrom(u, q, now) && i <= |q|
    requires forall j :: 0 <= j < i ==> Sooner(u, q[j], id, now)
    requires forall j :: i <= j < |q| ==> Sooner(u, id, q[j], now)
    ensures SortedFrom(u, InsertAt(q, i, id), now)
  {
    hide Sooner;
    var r := InsertAt(q, i, id);
    forall a, b | 0 <= a < b < |r| ensures Sooner(u, r[a], r[b], now) {
      assert r[a] == if a < i then q[a] else if a == i then id else q[a - 1];
      assert r[b] == if b < i then q[b] else if b == i then id else q[b - 1];
    }
  }

  lemma InsertFrame(v: Service, id: Id, expiry: nat) returns (u: Service, q: seq<Id>, i: nat)
    ensures u == Insert(v, id, expiry) && q == Without(v.active, id) && i == FirstLater(v, q, expiry)
    ensures u.active == InsertAt(q, i, id) && u.inserted == v.inserted + 1 && u.timers.Keys == v.timers.Keys + {id}
    ensures Tm(u, id) == Tm(v, id).(active := true, expiry := expiry, serial := v.inserted)
    ensures forall x :: x != id ==> Tm(u, x) == Tm(v, x)
    ensures forall x :: x in u.active <==> x == id || x in v.active
  {
    u, q := Insert(v, id, expiry), Without(v.active, id);
    i := FirstLater(v, q, expiry);
    assert u.active[i] == id;
  }

  /** The insertion loop's comparison, in terms of leads. */
  lemma InsertCompares(v: Service, u: Service, x: Id, id: Id, expiry: nat, now: nat)
    requires Spans(u, now) && x in u.active && id in u.active && x != id
    requires Tm(u, x) == Tm(v, x) && Tm(u, id).expiry == expiry
    ensures SignedDiff(expiry, Tm(v, x).expiry) == Lead(u, id, now) - Lead(u, x, now)
  {
    hide SignedDiff, Tm;
    ExpiriesCompare(expiry, Tm(v, x).expiry, now);
  }

  /** One comparison of an insertion: with the timers passed, and with the one it stops at. */
  lemma InsertMeets(v: Service, id: Id, expiry: nat, now: nat, j: nat)
    requires ListOk(v, now) && Spans(Insert(v, id, expiry), now)
    requires j < |Without(v.active, id)| && j <= FirstLater(v, Without(v.active, id), expiry)
    ensures var u, q, i := Insert(v, id, expiry), Without(v.active, id), FirstLater(v, Without(v.active, id), expiry);
      if j < i then Sooner(u, q[j], id, now) else Sooner(u, id, q[j], now)
  {
    hide Insert, Without, SignedDiff, Tm, NoDup, Spans, Lead, SortedFrom;
    var u, q, i := InsertFrame(v, id, expiry);
    WithoutNoDup(v.active, id);
    assert q[j] in q && q[j] in v.active;
    InsertCompares(v, u, q[j], id, expiry, now);
  }

  /** Where an inserted timer lands, in terms of leads. */
  lemma InsertPlace(v: Service, id: Id, expiry: nat, now: nat)
    requires ListOk(v, now) && Spans(Insert(v, id, expiry), now)
    ensures var u, q := Insert(v, id, expiry), Without(v.active, id);
      var i := FirstLater(v, q, expiry);
      && (forall j :: 0 <= j < i ==> Sooner(u, q[j], id, now))
      && (forall j :: i <= j < |q| ==> Sooner(u, id, q[j], now))
  {
    hide Insert, Without, Spans, Lead, Tm, NoDup, FirstLater;
    var u, q, i := InsertFrame(v, id, expiry);
    WithoutNoDup(v.active, id);
    SortedWithout(v, v.active, id, now);
    SoonerSame(v, u, q, id, now);
    forall j | 0 <= j < |q| && j <= i ensures if j < i then Sooner(u, q[j], id, now) else Sooner(u, id, q[j], now) {
      InsertMeets(v, id, expiry, now, j);
    }
    forall j | i < j < |q| ensures Sooner(u, id, q[j], now) {
      InsertMeets(v, id, expiry, now, i);
      assert q[i] in q && q[j] in q && Sooner(v, q[i], q[j], now) && Sooner(u, q[i], q[j], now);
    }
  }

  lemma InsertKeepsList(v: Service, id: Id, expiry: nat, now: nat)
    requires ListOk(v, now) && Spans(Insert(v, id, expiry), now)
    ensures ListOk(Insert(v, id, expiry), now)
  {
    hide Insert, Without, Lead, Spans, Tm, NoDup, FirstLater;
    InsertPlace(v, id, expiry, now);
    var u, q, i := InsertFrame(v, id, expiry);
    WithoutNoDup(v.active, id);
    InsertNoDup(q, i, id);
    SortedWithout(v, v.active, id, now);
    SoonerSame(v, u, q, id, now);
    SortedSame(v, u, q, now, now);
    SortedInsert(u, q, i, id, now);
  }

  /** Timers that are not touched compare as before. */
  lemma SoonerSame(v: Service, u: Service, q: seq<Id>, id: Id, now: nat)
    requires id !in q && forall x :: x != id ==> Tm(u, x) == Tm(v, x)
    ensures forall a, b :: a in q && b in q ==> (Sooner(v, a, b, now) <==> Sooner(u, a, b, now))
  {}

  lemma StopKeepsList(v: Service, id: Id, now: nat)
    requires ListOk(v, now)
    ensures ListOk(Stop(v, id), now)
  {
    var u := Stop(v, id);
    assert Tm(v, id).active ==> Tm(u, id) == Tm(v, id).(active := false);
    assert forall x :: x != id ==> Tm(u, x) == Tm(v, x);
    assert u.active == if Tm(v, id).active then Without(v.active, id) else v.active;
    assert u.inserted == v.inserted && forall x :: x in u.timers <==> x in v.timers || (x == id && Tm(v, id).active);
    hide Stop, Without, Lead, Tm, NoDup;
    if Tm(v, id).active {
      WithoutNoDup(v.active, id);
      SortedWithout(v, v.active, id, now);
      SoonerSame(v, u, u.active, id, now);
      SortedSame(v, u, u.active, now, now);
    }
  }

  /** Changing a period moves nothing: the running expiry stands. */
  lemma SetPeriodKeepsList(v: Service, id: Id, period: nat, now: nat)
    requires ListOk(v, now) && id in v.timers
    ensures ListOk(SetPeriod(v, id, period), now)
    ensures forall a :: Lead(SetPeriod(v, id, period), a, now) == Lead(v, a, now)
  {
    var u := SetPeriod(v, id, period);
    assert forall x :: Tm(u, x) == Tm(v, x).(period := Tm(u, x).period);
    hide SetPeriod, SignedDiff, Tm, NoDup;
    SortedSame(v, u, v.active, now, now);
  }

  /** Time passes alike for all timers. */
  lemma TickKeepsList(v: Service, now: nat)
    requires ListOk(v, now) && forall a :: a in v.active ==> Lead(v, a, now) > -HALF
    ensures ListOk(v, (now + 1) % U32)
    ensures forall a :: a in v.active ==> Lead(v, a, (now + 1) % U32) == Lead(v, a, now) - 1
  {
    hide SignedDiff, Tm, NoDup;
    forall a | a in v.active ensures Lead(v, a, (now + 1) % U32) == Lead(v, a, now) - 1 {
      LeadTicks(Tm(v, a).expiry, now);
    }
    SortedSame(v, v, v.active, now, (now + 1) % U32);
  }

  lemma OneShotKeepsList(v: Service, now: nat)
    requires ListOk(v, now) && v.active != [] && !Tm(v, v.active[0]).periodic
    ensures FireHead(v, now) == Stop(v, v.active[0])
  {
    WithoutHead(v.active);
    assert v.active[0] in v.active;
  }

  /** A pass of the drain loop keeps the list. */
  lemma FireKeepsList(v: Service, now: nat)
    requires ListOk(v, now) && v.active != [] && Spans(FireHead(v, now), now)
    ensures ListOk(FireHead(v, now), now)
  {
    hide Insert, Stop, ListOk, Spans, Tm;
    if Tm(v, v.active[0]).periodic { InsertKeepsList(v, v.active[0], NextExpiry(Tm(v, v.active[0]), now), now); }
    else { OneShotKeepsList(v, now); StopKeepsList(v, v.active[0], now); }
  }

  /**
   * The wait computed from the head alone is right for the whole list: for ever exactly if no timer runs, none exactly
   * if one is due, and otherwise the time to the soonest of all.
   */
  lemma WaitIsLeast(v: Service, now: nat)
    requires ListOk(v, now)
    ensures WaitTicks(v, now) == WAIT_FOREVER <==> forall id :: id in v.timers ==> !Tm(v, id).active
    ensures WaitTicks(v, now) == NO_WAIT <==> exists id :: id in v.active && Lead(v, id, now) <= 0
    ensures var wait := WaitTicks(v, now);
      wait != WAIT_FOREVER && wait != NO_WAIT ==>
        && (forall id :: id in v.active ==> wait <= Lead(v, id, now))
        && (exists id :: id in v.active && wait == Lead(v, id, now))
  {
    LeadRange(v, now);
    if v.active != [] {
      assert v.active[0] in v.active;
      forall id | id in v.active ensures Lead(v, v.active[0], now) <= Lead(v, id, now) {
        var i :| 0 <= i < |v.active| && v.active[i] == id;
        if i > 0 { assert Sooner(v, v.active[0], v.active[i], now); }
      }
    }
  }

  // ---- rescheduling ----------------------------------------------------------------------

  const THREE_QUARTERS: int := 0xC000_0000

  /**
   * The lead a due periodic timer gets: one period on, if that is not behind now; else a period from now, which the
   * signed comparison takes for a time ahead of now only below half the clock.
   */
  function Resched(lead: int, period: nat): int {
    if 0 <= lead + period < HALF then lead + period else if period < HALF then period else period - U32
  }

  /** What a pass of the loop makes of the expiry of a due timer, for every 32-bit period. */
  lemma Rescheduled(t: Timer, now: nat)
    requires t.period < U32 && now < U32 && SignedDiff(t.expiry, now) <= 0
    ensures var lead := SignedDiff(t.expiry, now);
      && SignedDiff(NextExpiry(t, now), now) == Resched(lead, t.period) && NextExpiry(t, now) < U32
      && (0 <= lead + t.period < HALF ==> NextExpiry(t, now) == (t.expiry + t.period) % U32)
  {
    var lead := SignedDiff(t.expiry, now);
    var q := SignedDiffHas(t.expiry, now);
    var e, f := t.expiry + t.period, now + t.period;
    assert e == U32 * (e / U32) + e % U32;
    assert f == U32 * (f / U32) + f % U32;
    if lead + t.period < HALF { SignedDiffIs(e % U32, now, lead + t.period, q - e / U32); }
    else { SignedDiffIs(e % U32, now, lead + t.period - U32, q - e / U32 + 1); }
    if t.period < HALF { SignedDiffIs(f % U32, now, t.period, 0 - f / U32); }
    else { SignedDiffIs(f % U32, now, t.period - U32, 1 - f / U32); }
  }

  /** A due timer is fired at its tick, or while its next expiry lies ahead of now by less than half the clock. */
  predicate OnBeat(lead: int, period: nat) { lead == 0 || 0 <= lead + period < HALF }

  /** A pass puts a due timer one period after its previous expiry exactly then. */
  lemma OnBeatExactly(t: Timer, now: nat)
    requires t.period < U32 && now < U32 && t.expiry < U32 && SignedDiff(t.expiry, now) <= 0
    ensures NextExpiry(t, now) == (t.expiry + t.period) % U32 <==> OnBeat(SignedDiff(t.expiry, now), t.period)
  {
    var lead := SignedDiff(t.expiry, now);
    var q := SignedDiffHas(t.expiry, now);
    var e := t.expiry + t.period;
    assert e == U32 * (e / U32) + e % U32;
    if 0 <= lead + t.period < HALF { SignedDiffIs(e % U32, now, lead + t.period, q - e / U32); }
    else if lead + t.period < 0 { SignedDiffIs(e % U32, now, lead + t.period, q - e / U32); }
    else { SignedDiffIs(e % U32, now, lead + t.period - U32, q - e / U32 + 1); }
    SameShift(t.expiry, now, t.period);
    assert t.expiry == now <==> lead == 0;
  }

  lemma SameShift(a: nat, b: nat, p: nat)
    requires a < U32 && b < U32 && p < U32
    ensures (a + p) % U32 == (b + p) % U32 <==> a == b
  {}

  /** A due periodic timer that no number of passes brings ahead of now. */
  predicate Trapped(lead: int, period: nat) {
    || period == 0
    || (period == HALF && (lead == 0 || lead == -HALF))
    || (period >= THREE_QUARTERS && lead + period >= HALF)
  }

  /** The number of passes that bring a due timer ahead of now, if any do. */
  function Turns(lead: int, period: nat, periodic: bool): nat {
    if lead > 0 then 0
    else if periodic && ((lead < 0 && lead + period == 0) || lead + period >= HALF) then 2
    else 1
  }

  lemma TrappedStays(lead: int, period: nat)
    requires -HALF <= lead <= 0 && period < U32
    ensures Trapped(lead, period) ==> Resched(lead, period) <= 0 && Trapped(Resched(lead, period), period)
    ensures !Trapped(lead, period) ==> Turns(Resched(lead, period), period, true) == Turns(lead, period, true) - 1
    ensures !Trapped(lead, period) && Resched(lead, period) <= 0 ==> !Trapped(Resched(lead, period), period)
  {}

  /** The least and the greatest lead on the way of a timer through the loop. */
  function LowLead(lead: int, period: nat, periodic: bool): int {
    if periodic && lead <= 0 && lead + period >= HALF && period - U32 < lead then period - U32 else lead
  }

  function HighLead(lead: int, period: nat, periodic: bool): int {
    if !periodic || lead > 0 then lead
    else if period < HALF then (if lead + period > 0 then lead + period else period)
    else if lead + period < HALF then lead + period
    else if period < THREE_QUARTERS then 2 * period - U32
    else if period - U32 < lead then lead else period - U32
  }

  lemma OrbitShrinks(lead: int, period: nat)
    requires -HALF <= lead <= 0 && period < U32
    ensures var next := Resched(lead, period);
      && LowLead(lead, period, true) <= LowLead(next, period, true) <= next
      && next <= HighLead(next, period, true) <= HighLead(lead, period, true)
  {}

  // ---- the drain loop, with the tick standing still --------------------------------------

  function TurnsOf(v: Service, id: Id, now: nat): nat {
    Turns(Lead(v, id, now), Tm(v, id).period, Tm(v, id).periodic)
  }

  /** The passes left for the timers of `q`. */
  function TotalTurns(v: Service, q: seq<Id>, now: nat): nat {
    if q == [] then 0 else TurnsOf(v, q[0], now) + TotalTurns(v, q[1..], now)
  }

  lemma {:induction false} TurnsSame(v: Service, u: Service, q: seq<Id>, now: nat)
    requires forall x :: x in q ==> Tm(u, x) == Tm(v, x)
    ensures TotalTurns(u, q, now) == TotalTurns(v, q, now)
  {
    if q != [] { TurnsSame(v, u, q[1..], now); }
  }

  lemma {:induction false} TurnsInsert(v: Service, q: seq<Id>, i: nat, id: Id, now: nat)
    requires i <= |q|
    ensures TotalTurns(v, InsertAt(q, i, id), now) == TotalTurns(v, q, now) + TurnsOf(v, id, now)
  {
    hide TurnsOf;
    if i == 0 { assert InsertAt(q, 0, id) == [id] + q; }
    else {
      assert InsertAt(q, i, id) == [q[0]] + InsertAt(q[1..], i - 1, id);
      TurnsInsert(v, q[1..], i - 1, id, now);
    }
  }

  /** A due periodic timer that keeps the loop going. */
  predicate Stuck(v: Service, id: Id, now: nat) {
    id in v.active && Lead(v, id, now) <= 0 && Tm(v, id).periodic && Trapped(Lead(v, id, now), Tm(v, id).period)
  }

  /** Each active timer is once in the list, in whatever order; the clock and the periods are 32-bit words. */
  ghost predicate Queued(v: Service, now: nat) {
    && NoDup(v.active) && now < U32
    && forall a :: a in v.active ==> a in v.timers && Tm(v, a).period < U32
  }

  /** Every pass over a due head is one of the passes left, unless the head is stuck. */
  lemma FireLightens(v: Service, now: nat)
    requires Queued(v, now) && HeadDue(v, now) && !Stuck(v, v.active[0], now)
    ensures TotalTurns(FireHead(v, now), FireHead(v, now).active, now) == TotalTurns(v, v.active, now) - 1
  {
    var id, q, u := v.active[0], v.active[1..], FireHead(v, now);
    WithoutHead(v.active);
    HeadOnce(v, now);
    HeadTurns(v, now);
    hide Queued, NextExpiry, Turns, Without, SignedDiff, Trapped, Resched;
    if Tm(v, id).periodic {
      var w, r, i := InsertFrame(v, id, NextExpiry(Tm(v, id), now));
      hide Tm, Insert;
      TurnsSame(v, u, q, now);
      TurnsInsert(u, q, i, id, now);
    } else {
      TurnsSame(v, u, q, now);
    }
  }

  lemma HeadOnce(v: Service, now: nat)
    requires Queued(v, now) && v.active != []
    ensures v.active[0] !in v.active[1..] && v.active[0] in v.active && NoDup(v.active)
    ensures v.active[0] in v.timers && Tm(v, v.active[0]).period < U32 && now < U32
  {}

  lemma HeadTurns(v: Service, now: nat)
    requires Queued(v, now) && HeadDue(v, now) && !Stuck(v, v.active[0], now)
    ensures var id := v.active[0];
      TurnsOf(v, id, now) == if Tm(v, id).periodic then TurnsOf(FireHead(v, now), id, now) + 1 else 1
  {
    var id := v.active[0];
    LeadRange(v, now);
    hide NextExpiry, SignedDiff, Insert, Without;
    if Tm(v, id).periodic {
      Rescheduled(Tm(v, id), now);
      TrappedStays(Lead(v, id, now), Tm(v, id).period);
      var w, r, i := InsertFrame(v, id, NextExpiry(Tm(v, id), now));
    }
  }

  function Low(v: Service, id: Id, now: nat): int { LowLead(Lead(v, id, now), Tm(v, id).period, Tm(v, id).periodic) }
  function High(v: Service, id: Id, now: nat): int { HighLead(Lead(v, id, now), Tm(v, id).period, Tm(v, id).periodic) }

  /** The list is in order, and any two timers stay less than half the clock apart wherever the loop takes them. */
  ghost predicate WithinClock(v: Service, now: nat) {
    && ListOk(v, now) && now < U32 && (forall a :: a in v.active ==> Tm(v, a).period < U32)
    && (forall a, b :: a in v.active && b in v.active && a != b ==> High(v, a, now) - Low(v, b, now) < HALF)
  }

  lemma ClockQueued(v: Service, now: nat)
    requires WithinClock(v, now)
    ensures Queued(v, now) && ListOk(v, now)
  {}

  ghost predicate Drainable(v: Service, now: nat) { WithinClock(v, now) && forall a :: !Stuck(v, a, now) }

  lemma FireView(v: Service, now: nat) returns (u: Service, id: Id)
    requires Queued(v, now) && v.active != []
    ensures u == FireHead(v, now) && id == v.active[0] && id in v.active && id in v.timers
    ensures Tm(v, id).periodic ==>
        Tm(u, id) == Tm(v, id).(expiry := NextExpiry(Tm(v, id), now), serial := v.inserted, active := true)
    ensures !Tm(v, id).periodic ==> Tm(u, id) == Tm(v, id).(active := false)
    ensures forall x :: x != id ==> Tm(u, x) == Tm(v, x)
    ensures forall x :: x in u.active <==> x in v.active && (x != id || Tm(v, id).periodic)
    ensures u.timers.Keys == v.timers.Keys
  {
    id, u := v.active[0], FireHead(v, now);
    HeadOnce(v, now);
    WithoutHead(v.active);
    assert v.active == [id] + v.active[1..];
    hide NoDup, Without, Queued;
    if Tm(v, id).periodic {
      var w, q, i := InsertFrame(v, id, NextExpiry(Tm(v, id), now));
      assert u == w;
    }
  }

  /** One pass in terms of leads: the head's is rescheduled, or the head is gone; the others stay. */
  lemma FireLeads(v: Service, now: nat) returns (u: Service, id: Id)
    requires Queued(v, now) && HeadDue(v, now)
    ensures u == FireHead(v, now) && id == v.active[0] && id in v.active && -HALF <= Lead(v, id, now) <= 0
    ensures Tm(v, id).periodic ==> Lead(u, id, now) == Resched(Lead(v, id, now), Tm(v, id).period)
    ensures forall x :: x != id ==> Lead(u, x, now) == Lead(v, x, now)
    ensures forall x :: Tm(u, x).period == Tm(v, x).period && Tm(u, x).periodic == Tm(v, x).periodic
    ensures forall x :: x in u.active <==> x in v.active && (x != id || Tm(v, id).periodic)
    ensures u.timers.Keys == v.timers.Keys
  {
    LeadRange(v, now);
    HeadOnce(v, now);
    hide FireHead, NextExpiry, SignedDiff, Queued, Tm, Resched;
    u, id := FireView(v, now);
    if Tm(v, id).periodic { Rescheduled(Tm(v, id), now); }
    assert forall x :: x != id ==> Tm(u, x).period == Tm(v, x).period && Tm(u, x).periodic == Tm(v, x).periodic;
  }

  lemma LeadRange(v: Service, now: nat)
    ensures forall a :: -HALF <= Lead(v, a, now) < HALF
  {}

  lemma FireKeepsClock(v: Service, now: nat)
    requires WithinClock(v, now) && HeadDue(v, now)
    ensures WithinClock(FireHead(v, now), now)
  {
    ClockQueued(v, now);
    hide ListOk, Queued, FireHead, Lead, LowLead, HighLead, Resched, Tm;
    var u, id := FireLeads(v, now);
    if Tm(v, id).periodic { OrbitShrinks(Lead(v, id, now), Tm(v, id).period); }
    FireSpans(v, u, now, id);
    FireKeepsList(v, now);
  }

  lemma FireSpans(v: Service, u: Service, now: nat, id: Id)
    requires WithinClock(v, now) && id in v.active
    requires forall x :: x in u.active ==> x in v.active
    requires forall x :: x in u.active ==> Low(v, x, now) <= Low(u, x, now) && High(u, x, now) <= High(v, x, now)
    ensures Spans(u, now)
  {
    hide ListOk, Lead, Tm;
    forall a, b | a in u.active && b in u.active ensures Lead(u, a, now) - Lead(u, b, now) < HALF {
      BetweenLowAndHigh(u, a, now);
      BetweenLowAndHigh(u, b, now);
    }
  }

  lemma BetweenLowAndHigh(v: Service, a: Id, now: nat)
    ensures Low(v, a, now) <= Lead(v, a, now) <= High(v, a, now)
  {}

  /** No pass traps a timer that was not. */
  lemma FireKeepsUnstuck(v: Service, now: nat)
    requires Queued(v, now) && HeadDue(v, now) && forall a :: !Stuck(v, a, now)
    ensures forall a :: !Stuck(FireHead(v, now), a, now)
  {
    HeadOnce(v, now);
    hide Queued, FireHead, Lead, Resched, Trapped, Tm;
    var u, id := FireLeads(v, now);
    assert !Stuck(v, id, now);
    if Tm(v, id).periodic { TrappedStays(Lead(v, id, now), Tm(v, id).period); }
    forall a ensures !Stuck(u, a, now) { assert !Stuck(v, a, now); }
  }

  lemma FireKeepsQueued(v: Service, now: nat)
    requires Queued(v, now) && HeadDue(v, now)
    ensures Queued(FireHead(v, now), now)
  {
    HeadOnce(v, now);
    var u, id := FireLeads(v, now);
    FireKeepsOnce(v, now);
    hide FireHead, Lead, Resched, NoDup;
  }

  lemma FireKeepsOnce(v: Service, now: nat)
    requires NoDup(v.active) && v.active != []
    ensures NoDup(FireHead(v, now).active)
  {
    var id := v.active[0];
    WithoutNoDup(v.active, id);
    WithoutHead(v.active);
    hide NoDup, NextExpiry, Tm, Insert, Without;
    if Tm(v, id).periodic {
      var u, r, i := InsertFrame(v, id, NextExpiry(Tm(v, id), now));
      InsertNoDup(r, i, id);
    }
  }

  lemma HeadIsFree(v: Service, now: nat)
    requires HeadDue(v, now) && forall a :: !Stuck(v, a, now)
    ensures !Stuck(v, v.active[0], now)
  {}

  lemma FireKeepsDrainable(v: Service, now: nat)
    requires Drainable(v, now) && HeadDue(v, now)
    ensures Drainable(FireHead(v, now), now)
  {
    FireKeepsClock(v, now);
    ClockQueued(v, now);
    hide ListOk, Queued, FireHead, Stuck, WithinClock;
    FireKeepsUnstuck(v, now);
  }

  /** The drain loop: fire the head while it is due. `fired` is the order of the callbacks. */
  function Drain(v: Service, now: nat): (r: (Service, seq<Id>))
    requires Drainable(v, now)
    decreases TotalTurns(v, v.active, now)
  {
    if !HeadDue(v, now) then (v, [])
    else
      DrainableFacts(v, now); FireLightens(v, now); FireKeepsDrainable(v, now);
      var (u, fired) := Drain(FireHead(v, now), now);
      (u, [v.active[0]] + fired)
  }

  /** How often the loop fires a timer. */
  function Firings(v: Service, id: Id, now: nat): nat {
    if id !in v.active then 0 else TurnsOf(v, id, now)
  }

  function Occurrences(q: seq<Id>, id: Id): nat {
    if q == [] then 0 else (if q[0] == id then 1 else 0) + Occurrences(q[1..], id)
  }

  lemma FireCounts(v: Service, now: nat, id: Id)
    requires Drainable(v, now) && HeadDue(v, now)
    ensures Firings(v, id, now) == Firings(FireHead(v, now), id, now) + (if id == v.active[0] then 1 else 0)
  {
    DrainableFacts(v, now);
    hide ListOk, FireHead, Lead, WithinClock, Resched, Trapped, Turns, Tm;
    var u, head := FireLeads(v, now);
    HeadTurns(v, now);
  }

  /** Where the loop leaves a timer that stays active. */
  function FinalLead(lead: int, period: nat): int {
    if lead > 0 then lead
    else if 0 < lead + period < HALF then lead + period
    else if period < HALF then period
    else 2 * period - U32
  }

  lemma FinalAfterPass(lead: int, period: nat)
    requires -HALF <= lead <= 0 && period < U32 && !Trapped(lead, period)
    ensures FinalLead(Resched(lead, period), period) == FinalLead(lead, period) > 0
  {}

  /** The loop goes from `v` to `u`, firing the timers `fired` in that order. */
  ghost predicate Drained(v: Service, u: Service, fired: seq<Id>, now: nat) {
    && (forall id :: Occurrences(fired, id) == Firings(v, id, now))
    && (forall id :: id in u.active <==> id in v.active && (Lead(v, id, now) > 0 || Tm(v, id).periodic))
    && (forall id :: id in u.active ==> Lead(u, id, now) == FinalLead(Lead(v, id, now), Tm(v, id).period) > 0)
    && u.timers.Keys == v.timers.Keys && ListOk(u, now)
  }

  /**
   * The loop terminates, fires every due one-shot timer once and every due periodic timer once or twice, no other
   * timer, and leaves none due.
   */
  lemma {:induction false} DrainComplete(v: Service, now: nat)
    requires Drainable(v, now)
    ensures Drained(v, Drain(v, now).0, Drain(v, now).1, now)
    decreases TotalTurns(v, v.active, now)
  {
    if !HeadDue(v, now) {
      NoneDue(v, now);
    } else {
      DrainableFacts(v, now);
      FireLightens(v, now);
      FireKeepsDrainable(v, now);
      var u := FireHead(v, now);
      DrainComplete(u, now);
      DrainPass(v, u, now);
    }
  }

  lemma NoneDue(v: Service, now: nat)
    requires ListOk(v, now) && !HeadDue(v, now)
    ensures forall id :: id in v.active ==> Lead(v, id, now) > 0
    ensures forall id :: Firings(v, id, now) == 0
  {
    hide Lead, Tm;
    forall id | id in v.active ensures Lead(v, id, now) > 0 {
      var i :| 0 <= i < |v.active| && v.active[i] == id;
      if i > 0 { assert Sooner(v, v.active[0], v.active[i], now); }
    }
  }

  lemma DrainPass(v: Service, u: Service, now: nat)
    requires Drainable(v, now) && HeadDue(v, now) && u == FireHead(v, now) && Drainable(u, now)
    requires Drained(u, Drain(u, now).0, Drain(u, now).1, now)
    ensures Drained(v, Drain(v, now).0, Drain(v, now).1, now)
  {
    DrainableFacts(v, now);
    assert v.active != [];
    hide Drain, FireHead, Lead, Tm, Drainable, Firings, ListOk, Occurrences, Resched, Trapped, FinalLead, HeadDue;
    DrainUnfolds(v, now);
    var fired := Drain(u, now).1;
    var w, head := FireLeads(v, now);
    forall id ensures Occurrences(Drain(v, now).1, id) == Firings(v, id, now) {
      FireCounts(v, now, id);
      OneMore(head, fired, id);
    }
    if Tm(v, head).periodic { FinalAfterPass(Lead(v, head, now), Tm(v, head).period); }
  }

  lemma DrainUnfolds(v: Service, now: nat)
    requires Drainable(v, now) && HeadDue(v, now)
    ensures Drainable(FireHead(v, now), now)
    ensures Drain(v, now) == (Drain(FireHead(v, now), now).0, [v.active[0]] + Drain(FireHead(v, now), now).1)
  {
    FireKeepsDrainable(v, now);
  }

  lemma OneMore(x: Id, q: seq<Id>, id: Id)
    ensures Occurrences([x] + q, id) == Occurrences(q, id) + (if x == id then 1 else 0)
  {
    assert ([x] + q)[1..] == q;
  }

  lemma DrainableFacts(v: Service, now: nat)
    requires Drainable(v, now)
    ensures Queued(v, now) && ListOk(v, now) && forall a :: !Stuck(v, a, now)
  {}

  // ---- when the loop ends ----------------------------------------------------------------

  /** The service after `n` passes of the loop, or fewer if it ends before. */
  function AfterPasses(v: Service, now: nat, n: nat): Service
    decreases n
  {
    if n == 0 || !HeadDue(v, now) then v else AfterPasses(FireHead(v, now), now, n - 1)
  }

  ghost predicate LoopEnds(v: Service, now: nat) {
    exists n: nat :: !HeadDue(AfterPasses(v, now, n), now)
  }

  /**
   * The loop ends whenever no due periodic timer is trapped by its period: in whatever order the list is, and however
   * far the timers are apart.
   */
  lemma {:induction false} UntrappedEnds(v: Service, now: nat) returns (n: nat)
    requires Queued(v, now) && forall a :: !Stuck(v, a, now)
    ensures !HeadDue(AfterPasses(v, now, n), now)
    decreases TotalTurns(v, v.active, now)
  {
    hide Queued, Stuck, HeadDue, FireHead;
    if !HeadDue(v, now) { n := 0; }
    else {
      HeadIsFree(v, now);
      FireLightens(v, now);
      FireKeepsQueued(v, now);
      FireKeepsUnstuck(v, now);
      n := UntrappedEnds(FireHead(v, now), now);
      n := n + 1;
    }
  }

  lemma StuckStays(v: Service, id: Id, now: nat)
    requires WithinClock(v, now) && HeadDue(v, now) && Stuck(v, id, now)
    ensures Stuck(FireHead(v, now), id, now)
  {
    ClockQueued(v, now);
    hide FireHead, Lead, ListOk, Queued, Resched, Trapped, Tm;
    var u, head := FireLeads(v, now);
    if id == head { TrappedStays(Lead(v, id, now), Tm(v, id).period); }
  }

  lemma {:induction false} StuckForever(v: Service, id: Id, now: nat, n: nat)
    requires WithinClock(v, now) && Stuck(v, id, now)
    ensures HeadDue(AfterPasses(v, now, n), now)
    decreases n
  {
    hide WithinClock, Stuck, HeadDue, FireHead;
    StuckMeansDue(v, id, now);
    if n > 0 {
      FireKeepsClock(v, now);
      StuckStays(v, id, now);
      StuckForever(FireHead(v, now), id, now, n - 1);
    }
  }

  lemma StuckMeansDue(v: Service, id: Id, now: nat)
    requires WithinClock(v, now) && Stuck(v, id, now)
    ensures HeadDue(v, now)
  {
    if !HeadDue(v, now) { NoneDue(v, now); }
  }

  /** With the tick frozen the drain loop ends if and only if no due periodic timer is trapped by its period. */
  lemma LoopEndsExactly(v: Service, now: nat)
    requires WithinClock(v, now)
    ensures LoopEnds(v, now) <==> forall a ::
      a in v.active && Lead(v, a, now) <= 0 && Tm(v, a).periodic ==> !Trapped(Lead(v, a, now), Tm(v, a).period)
  {
    hide WithinClock, HeadDue, AfterPasses, Lead, Trapped, Tm;
    if Drainable(v, now) {
      ClockQueued(v, now);
      var n := UntrappedEnds(v, now);
      forall a | a in v.active ensures !Stuck(v, a, now) {}
    } else {
      var a :| Stuck(v, a, now);
      forall n: nat ensures HeadDue(AfterPasses(v, now, n), now) { StuckForever(v, a, now, n); }
    }
  }

  /**
   * A period need not be 0 for the loop to run for ever: one timer due now, with a period of three quarters of the
   * clock.
   */
  lemma LongPeriodNeverEnds(now: nat)
    requires now < U32
    ensures var v := Service(map[0 := Timer(THREE_QUARTERS, true, true, now, 0)], [0], 1);
      ListOk(v, now) && !LoopEnds(v, now)
  {
    var v := Service(map[0 := Timer(THREE_QUARTERS, true, true, now, 0)], [0], 1);
    assert Stuck(v, 0, now);
    LoopEndsExactly(v, now);
  }

  // ---- what each operation does, told from its arguments ---------------------------------

  /** `id` stands in front of the first of the other timers that expires strictly later than it does now. */
  ghost predicate InPlace(v: Service, u: Service, id: Id) {
    var q := Without(v.active, id);
    exists i: nat :: i <= |q| && u.active == InsertAt(q, i, id)
      && (forall j :: 0 <= j < i ==> SignedDiff(Tm(u, id).expiry, Tm(u, q[j]).expiry) >= 0)
      && (i < |q| ==> SignedDiff(Tm(u, id).expiry, Tm(u, q[i]).expiry) < 0)
  }

  /** The 32-bit clock reading that is `x` ticks after its origin. */
  predicate Reads(clock: nat, x: nat) { clock < U32 && (x - clock) % U32 == 0 }

  ghost predicate OtherTimersStay(v: Service, u: Service, id: Id) {
    u.timers.Keys == v.timers.Keys && forall x :: x != id ==> Tm(u, x) == Tm(v, x)
  }

  /** The timer runs now, with period `period`, and expires one period from `now`. */
  ghost predicate Starts(v: Service, u: Service, id: Id, period: nat, now: nat) {
    var s := Tm(u, id);
    && OtherTimersStay(v, u, id) && InPlace(v, u, id) && u.inserted == v.inserted + 1
    && s.active && s.serial == v.inserted && s.period == period && s.periodic == Tm(v, id).periodic
    && Reads(s.expiry, now + period)
  }

  ghost predicate Stops(v: Service, u: Service, id: Id) {
    && OtherTimersStay(v, u, id) && u.inserted == v.inserted && Tm(u, id) == Tm(v, id).(active := false)
    && u.active == (if Tm(v, id).active then Without(v.active, id) else v.active)
  }

  ghost predicate ChangesPeriod(v: Service, u: Service, id: Id, period: nat) {
    && OtherTimersStay(v, u, id) && u.inserted == v.inserted && u.active == v.active
    && Tm(u, id) == Tm(v, id).(period := period)
  }

  /**
   * The head has been fired: a one-shot timer is off the list, a periodic one expires one period after its previous
   * expiry if that is on beat, else one period from `now`.
   */
  ghost predicate Fired(v: Service, u: Service, now: nat)
    requires v.active != []
  {
    var id := v.active[0];
    var t, s := Tm(v, id), Tm(u, id);
    && OtherTimersStay(v, u, id)
    && if t.periodic then
         && InPlace(v, u, id) && u.inserted == v.inserted + 1
         && s.active && s.serial == v.inserted && s.period == t.period && s.periodic
         && Reads(s.expiry, (if OnBeat(Lead(v, id, now), t.period) then t.expiry else now) + t.period)
       else s == t.(active := false) && u.active == v.active[1..] && u.inserted == v.inserted
  }

  lemma InsertedInPlace(v: Service, id: Id, expiry: nat)
    requires NoDup(v.active)
    ensures InPlace(v, Insert(v, id, expiry), id)
  {
    var u, q, i := InsertFrame(v, id, expiry);
    NotAmong(v, u, id, q);
    PlacedAt(v, u, id, q, i);
  }

  lemma NotAmong(v: Service, u: Service, id: Id, q: seq<Id>)
    requires NoDup(v.active) && q == Without(v.active, id) && forall x :: x != id ==> Tm(u, x) == Tm(v, x)
    ensures forall j :: 0 <= j < |q| ==> Tm(u, q[j]) == Tm(v, q[j])
  {
    WithoutNoDup(v.active, id);
    hide Tm, NoDup, Without;
    assert forall j :: 0 <= j < |q| ==> q[j] in q;
  }

  lemma PlacedAt(v: Service, u: Service, id: Id, q: seq<Id>, i: nat)
    requires q == Without(v.active, id) && i == FirstLater(v, q, Tm(u, id).expiry) && u.active == InsertAt(q, i, id)
    requires forall j :: 0 <= j < |q| ==> Tm(u, q[j]) == Tm(v, q[j])
    ensures InPlace(v, u, id)
  {
    hide Tm, SignedDiff, Without, InsertAt, FirstLater;
  }

  lemma WrapsTo(x: nat)
    ensures Reads(x % U32, x)
  {
    ModShift(0, x / U32);
    assert x == U32 * (x / U32) + x % U32;
  }

  lemma ReadsOnce(a: nat, b: nat, x: nat)
    requires Reads(a, x) && Reads(b, x)
    ensures a == b
  {}

  /** A clock reading `d` ticks from now is ahead of now by `d`, below half the clock. */
  lemma LeadOfReading(e: nat, now: nat, d: nat)
    requires now < U32 && d < U32 && Reads(e, now + d)
    ensures SignedDiff(e, now) == if d < HALF then d else d - U32
  {
    var q := (now + d - e) / U32;
    assert now + d - e == U32 * q;
    SignedDiffIs(e, now, if d < HALF then d else d - U32, if d < HALF then 0 - q else 1 - q);
  }

  /** A timer gets a new expiry and is put in its place. */
  lemma InsertSets(v: Service, id: Id, expiry: nat)
    requires NoDup(v.active) && id in v.timers
    ensures var u := Insert(v, id, expiry);
      && OtherTimersStay(v, u, id) && InPlace(v, u, id) && u.inserted == v.inserted + 1
      && Tm(u, id) == Tm(v, id).(active := true, expiry := expiry, serial := v.inserted)
  {
    hide InPlace, Tm, Insert, NoDup;
    InsertedInPlace(v, id, expiry);
    var u, q, i := InsertFrame(v, id, expiry);
  }

  /** nimble_timer_start, whether the timer runs already or not. */
  lemma StartSets(v: Service, id: Id, now: nat)
    requires NoDup(v.active) && id in v.timers
    ensures Starts(v, Start(v, id, now), id, Tm(v, id).period, now)
    ensures now < U32 && Tm(v, id).period < HALF ==> Lead(Start(v, id, now), id, now) == Tm(v, id).period
    ensures now < U32 && HALF <= Tm(v, id).period < U32 ==> Lead(Start(v, id, now), id, now) == Tm(v, id).period - U32
  {
    hide InPlace, Tm, Insert, SignedDiff, Reads, NoDup, OtherTimersStay;
    var expiry := (now + Tm(v, id).period) % U32;
    WrapsTo(now + Tm(v, id).period);
    InsertSets(v, id, expiry);
    if now < U32 && Tm(v, id).period < U32 { LeadOfReading(expiry, now, Tm(v, id).period); }
  }

  /** nimble_timer_reset: the period that counts is the new one. */
  lemma ResetSets(v: Service, id: Id, period: nat, now: nat)
    requires NoDup(v.active) && id in v.timers
    ensures var u := Start(SetPeriod(v, id, period), id, now);
      && Starts(v, u, id, period, now)
      && (now < U32 && period < HALF ==> Lead(u, id, now) == period)
      && (now < U32 && HALF <= period < U32 ==> Lead(u, id, now) == period - U32)
  {
    PeriodSets(v, id, period);
    var w := SetPeriod(v, id, period);
    StartSets(w, id, now);
    hide Start, SetPeriod, Tm, SignedDiff, Reads, NoDup, Without;
  }

  lemma StopSets(v: Service, id: Id)
    requires id in v.timers
    ensures Stops(v, Stop(v, id), id)
  {
    hide Without;
  }

  lemma PeriodSets(v: Service, id: Id, period: nat)
    requires id in v.timers
    ensures ChangesPeriod(v, SetPeriod(v, id, period), id, period)
  {}

  /** One pass of the drain loop over a due head, in a list in any order. */
  lemma FireSets(v: Service, now: nat)
    requires Queued(v, now) && HeadDue(v, now) && Tm(v, v.active[0]).expiry < U32
    ensures Fired(v, FireHead(v, now), now)
  {
    hide InPlace, Tm, NextExpiry, SignedDiff, Reads, NoDup, Queued, Insert, OnBeat, OtherTimersStay;
    var id := v.active[0];
    var t := Tm(v, id);
    HeadOnce(v, now);
    if t.periodic {
      NextReads(t, now);
      InsertSets(v, id, NextExpiry(t, now));
    } else {
      OneShotFires(v, now);
    }
  }

  lemma NextReads(t: Timer, now: nat)
    requires t.period < U32 && now < U32 && t.expiry < U32 && SignedDiff(t.expiry, now) <= 0
    ensures Reads(NextExpiry(t, now),
                  (if OnBeat(SignedDiff(t.expiry, now), t.period) then t.expiry else now) + t.period)
  {
    OnBeatExactly(t, now);
    WrapsTo(t.expiry + t.period);
    WrapsTo(now + t.period);
  }

  lemma OneShotFires(v: Service, now: nat)
    requires v.active != [] && v.active[0] in v.timers && !Tm(v, v.active[0]).periodic
    ensures var id, u := v.active[0], FireHead(v, now);
      && OtherTimersStay(v, u, id) && Tm(u, id) == Tm(v, id).(active := false)
      && u.active == v.active[1..] && u.inserted == v.inserted
  {}

  // ---- and leaves nothing open -----------------------------------------------------------

  lemma SameService(v: Service, a: Service, b: Service, id: Id)
    requires id in v.timers && OtherTimersStay(v, a, id) && OtherTimersStay(v, b, id) && Tm(a, id) == Tm(b, id)
    requires a.active == b.active && a.inserted == b.inserted
    ensures a == b
  {
    assert forall x :: x in a.timers ==> Tm(a, x) == Tm(b, x);
    assert a.timers == b.timers;
  }

  lemma OnePlace(v: Service, a: Service, b: Service, id: Id)
    requires InPlace(v, a, id) && InPlace(v, b, id) && forall x :: Tm(a, x) == Tm(b, x)
    ensures a.active == b.active
  {
    hide Tm, SignedDiff, Without, InsertAt;
    var q := Without(v.active, id);
    var i: nat :| i <= |q| && a.active == InsertAt(q, i, id)
      && (forall j :: 0 <= j < i ==> SignedDiff(Tm(a, id).expiry, Tm(a, q[j]).expiry) >= 0)
      && (i < |q| ==> SignedDiff(Tm(a, id).expiry, Tm(a, q[i]).expiry) < 0);
    var j: nat :| j <= |q| && b.active == InsertAt(q, j, id)
      && (forall i :: 0 <= i < j ==> SignedDiff(Tm(b, id).expiry, Tm(b, q[i]).expiry) >= 0)
      && (j < |q| ==> SignedDiff(Tm(b, id).expiry, Tm(b, q[j]).expiry) < 0);
    assert i == j;
  }

  lemma StartsOneWay(v: Service, a: Service, b: Service, id: Id, period: nat, now: nat)
    requires id in v.timers && Starts(v, a, id, period, now) && Starts(v, b, id, period, now)
    ensures a == b
  {
    ReadsOnce(Tm(a, id).expiry, Tm(b, id).expiry, now + period);
    hide InPlace, Reads, Tm;
    OnePlace(v, a, b, id);
    SameService(v, a, b, id);
  }

  lemma StopsOneWay(v: Service, a: Service, b: Service, id: Id)
    requires id in v.timers && Stops(v, a, id) && Stops(v, b, id)
    ensures a == b
  {
    hide Tm, Without;
    SameService(v, a, b, id);
  }

  lemma PeriodOneWay(v: Service, a: Service, b: Service, id: Id, period: nat)
    requires id in v.timers && ChangesPeriod(v, a, id, period) && ChangesPeriod(v, b, id, period)
    ensures a == b
  {
    hide Tm;
    SameService(v, a, b, id);
  }

  lemma FiredOneWay(v: Service, a: Service, b: Service, now: nat)
    requires v.active != [] && v.active[0] in v.timers && Fired(v, a, now) && Fired(v, b, now)
    ensures a == b
  {
    var id := v.active[0];
    FiredSame(v, a, b, now);
    hide InPlace, Fired, Tm;
    SameService(v, a, b, id);
  }

  lemma FiredSame(v: Service, a: Service, b: Service, now: nat)
    requires v.active != [] && Fired(v, a, now) && Fired(v, b, now)
    ensures var id := v.active[0];
      && OtherTimersStay(v, a, id) && OtherTimersStay(v, b, id) && Tm(a, id) == Tm(b, id)
      && a.active == b.active && a.inserted == b.inserted
  {
    hide InPlace, SignedDiff, OnBeat, Reads, Tm;
    var id := v.active[0];
    if Tm(v, id).periodic {
      BeatOnce(v, a, b, now);
      OnePlace(v, a, b, id);
    }
  }

  lemma BeatOnce(v: Service, a: Service, b: Service, now: nat)
    requires v.active != [] && Fired(v, a, now) && Fired(v, b, now) && Tm(v, v.active[0]).periodic
    ensures Tm(a, v.active[0]) == Tm(b, v.active[0])
  {
    hide InPlace, SignedDiff, OnBeat, Reads, Tm, OtherTimersStay;
    var id := v.active[0];
    var x := (if OnBeat(Lead(v, id, now), Tm(v, id).period) then Tm(v, id).expiry else now) + Tm(v, id).period;
    ReadsOnce(Tm(a, id).expiry, Tm(b, id).expiry, x);
  }
}

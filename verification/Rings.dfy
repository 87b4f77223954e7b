/**
 * The lists of one kind of node, on the heap: list heads, one node in each object, and every list a ring. An object's
 * node is on one list at most, and leaves it through its own pointers.
 */
module Rings {
  import opened Sequences
  import opened IntrusiveList

  /** The nodes of the objects of `q`. */
  function NodesOf(nodes: map<nat, Node>, q: seq<nat>, other: Node): (s: seq<Node>)
    ensures |s| == |q| && forall i :: 0 <= i < |q| ==> s[i] == if q[i] in nodes then nodes[q[i]] else other
  {
    seq(|q|, i requires 0 <= i < |q| => if q[i] in nodes then nodes[q[i]] else other)
  }

  /** Where a walk along `q` stops. */
  function FirstStop(q: seq<nat>, stops: nat -> bool): (i: nat)
    ensures i <= |q| && (forall j :: 0 <= j < i ==> !stops(q[j])) && (i < |q| ==> stops(q[i]))
  {
    if q == [] || stops(q[0]) then 0 else 1 + FirstStop(q[1..], stops)
  }

  lemma {:induction false} FirstStopIs(q: seq<nat>, stops: nat -> bool, i: nat)
    requires i <= |q| && (forall j :: 0 <= j < i ==> !stops(q[j])) && (i < |q| ==> stops(q[i]))
    ensures FirstStop(q, stops) == i
  {
    if i > 0 { FirstStopIs(q[1..], stops, i - 1); }
  }

  /** Heads and nodes are all different objects; a node is on the list that `place` says, and on no other. */
  ghost predicate Apart<L(!new)>(heads: map<L, Node>, nodes: map<nat, Node>, lists: map<L, seq<nat>>,
                                 place: map<nat, L>) {
    && heads.Keys == lists.Keys && (forall id :: id in nodes ==> nodes[id].owner == id)
    && (forall l, m :: l in heads && m in heads && heads[l] == heads[m] ==> l == m)
    && (forall l, id :: l in heads && id in nodes ==> heads[l] != nodes[id])
    && (forall l, id {:trigger id in lists[l]} :: l in lists && id in lists[l] ==>
        id in nodes && id in place && place[id] == l)
    && (forall id :: id in place ==> id in nodes && place[id] in lists && id in lists[place[id]])
  }

  /** The nodes of a list are those whose place it is. */
  lemma Members<L(!new)>(heads: map<L, Node>, nodes: map<nat, Node>, lists: map<L, seq<nat>>, place: map<nat, L>, l: L)
    requires Apart(heads, nodes, lists, place) && l in heads
    ensures forall x :: x in NodesOf(nodes, lists[l], heads[l]) ==>
      x.owner in place && place[x.owner] == l && x.owner in nodes && nodes[x.owner] == x
  {
    var s := NodesOf(nodes, lists[l], heads[l]);
    forall x | x in s ensures x.owner in place && place[x.owner] == l && x.owner in nodes && nodes[x.owner] == x {
      var i :| 0 <= i < |s| && s[i] == x;
      assert lists[l][i] in lists[l];
    }
  }

  lemma JoinsList<L(!new)>(heads: map<L, Node>, nodes: map<nat, Node>, lists: map<L, seq<nat>>, place: map<nat, L>,
                       l: L, id: nat, q: seq<nat>)
    requires Apart(heads, nodes, lists, place) && l in heads && id in nodes && id !in place
    requires forall x :: x in q <==> x == id || x in lists[l]
    ensures Apart(heads, nodes, lists[l := q], place[id := l])
  {}

  lemma LeavesList<L(!new)>(heads: map<L, Node>, nodes: map<nat, Node>, lists: map<L, seq<nat>>, place: map<nat, L>,
                        id: nat, q: seq<nat>)
    requires Apart(heads, nodes, lists, place) && id in place
    requires forall x :: x in q <==> x != id && x in lists[place[id]]
    ensures Apart(heads, nodes, lists[place[id] := q], place - {id})
  {}

  lemma InsertMaps(nodes: map<nat, Node>, q: seq<nat>, other: Node, i: nat, id: nat)
    requires i <= |q| && id in nodes
    ensures NodesOf(nodes, InsertAt(q, i, id), other) == InsertAt(NodesOf(nodes, q, other), i, nodes[id])
  {
    var r, s := InsertAt(q, i, id), InsertAt(NodesOf(nodes, q, other), i, nodes[id]);
    assert forall j :: 0 <= j < |r| ==> r[j] == if j < i then q[j] else if j == i then id else q[j - 1];
  }

  lemma WithoutMaps(nodes: map<nat, Node>, q: seq<nat>, other: Node, id: nat)
    requires id in q && NoDup(NodesOf(nodes, q, other)) && id in nodes
    ensures NodesOf(nodes, Without(q, id), other) == Without(NodesOf(nodes, q, other), nodes[id])
    ensures forall x :: x in Without(q, id) <==> x != id && x in q
  {
    hide Without, NoDup;
    var s := NodesOf(nodes, q, other);
    var i :| 0 <= i < |q| && q[i] == id;
    assert s[i] == nodes[id];
    OnceEach(nodes, q, other);
    WithoutAt(q, i, id);
    WithoutAt(s, i, nodes[id]);
    WithoutNoDup(q, id);
    var r, t := NodesOf(nodes, Without(q, id), other), Without(s, nodes[id]);
    assert |r| == |t| && forall j :: 0 <= j < |r| ==> r[j] == t[j];
  }

  lemma OnceEach(nodes: map<nat, Node>, q: seq<nat>, other: Node)
    requires NoDup(NodesOf(nodes, q, other))
    ensures NoDup(q)
  {
    var s := NodesOf(nodes, q, other);
    assert forall j, k :: 0 <= j < k < |q| ==> s[j] != s[k];
  }

  lemma WithoutAt<X>(s: seq<X>, i: nat, x: X)
    requires NoDup(s) && i < |s| && s[i] == x
    ensures |Without(s, x)| == |s| - 1
    ensures forall j {:trigger Without(s, x)[j]} :: 0 <= j < |s| - 1 ==>
        Without(s, x)[j] == if j < i then s[j] else s[j + 1]
  {
    assert IndexOf(s, x) == i;
    WithoutKeepsOrder(s, x);
  }

  class Rings<L(==, !new)> {
    var heads: map<L, Node>
    var nodes: map<nat, Node>
    ghost var lists: map<L, seq<nat>>
    ghost var place: map<nat, L>
    ghost var Repr: set<object>

    ghost function NodesOn(l: L): seq<Node>
      requires l in heads
      reads this
    {
      NodesOf(nodes, if l in lists then lists[l] else [], heads[l])
    }

    ghost predicate Owned()
      reads this
    {
      this in Repr && (forall l :: l in heads ==> heads[l] in Repr) && (forall id :: id in nodes ==> nodes[id] in Repr)
    }

    /** Every list is a ring, and every other node a ring of its own. */
    ghost predicate AllRings()
      requires heads.Keys == lists.Keys && Owned()
      reads this, Repr
    {
      && (forall l :: l in heads ==> Ring(heads[l], NodesOn(l)))
      && (forall id :: id in nodes && id !in place ==> Ring(nodes[id], []))
    }

    ghost predicate Valid()
      reads this, Repr
    {
      Owned() && Apart(heads, nodes, lists, place) && AllRings()
    }
  
    /** What writes to list `l` and to the node of `id`, which is on that list or on none, do not touch. */
    lemma Untouched(l: L, id: nat)
      requires Apart(heads, nodes, lists, place) && l in heads && id in nodes && (id in place ==> place[id] == l)
      ensures forall m :: m in heads && m != l ==> Spared(heads[m], l, id)
      ensures forall m, j {:trigger NodesOn(m)[j]} :: m in heads && m != l && 0 <= j < |NodesOn(m)| ==>
          Spared(NodesOn(m)[j], l, id)
      ensures forall i :: i in nodes && i != id && i !in place ==> Spared(nodes[i], l, id)
      ensures id !in place ==> nodes[id] !in NodesOn(l) && nodes[id] != heads[l]
    {
      Members(heads, nodes, lists, place, l);
      forall m, j | m in heads && m != l && 0 <= j < |NodesOn(m)| ensures Spared(NodesOn(m)[j], l, id) {
        Members(heads, nodes, lists, place, m);
        assert NodesOn(m)[j] in NodesOn(m);
      }
    }

    ghost predicate Spared(x: Node, l: L, id: nat)
      requires l in heads && id in nodes
      reads this
    {
      x != heads[l] && x != nodes[id] && x !in NodesOn(l)
    }

    constructor ()
      ensures Valid() && fresh(Repr) && Repr == {this}
      ensures heads == map[] && nodes == map[] && lists == map[] && place == map[]
    {
      heads, nodes, lists, place := map[], map[], map[], map[];
      Repr := {this};
    }

    /** nimble_list_init on a list head. */
    method AddHead(l: L)
      requires Valid() && l !in heads
      modifies this
      ensures Valid() && fresh(Repr - old(Repr)) && old(Repr) <= Repr && nodes == old(nodes)
      ensures heads.Keys == old(heads).Keys + {l} && lists == old(lists)[l := []] && place == old(place)
    {
      hide Ring, NoDup, Apart;
      KeysOfApart();
      var head := new Node(0);
      HeadsStay(l, head);
      AdoptHead(l, head);
    }

    method AdoptHead(l: L, head: Node)
      requires Valid() && l !in heads && heads.Keys == lists.Keys && Ring(head, [])
      requires Apart(heads[l := head], nodes, lists[l := []], place)
      modifies this
      ensures Valid() && Repr == old(Repr) + {head} && nodes == old(nodes)
      ensures heads == old(heads)[l := head] && lists == old(lists)[l := []] && place == old(place)
    {
      hide Ring, NoDup, Apart;
      heads, lists, Repr := heads[l := head], lists[l := []], Repr + {head};
      assert NodesOn(l) == [];
    }

    lemma HeadsStay(l: L, head: Node)
      requires Apart(heads, nodes, lists, place) && l !in heads
      requires forall m :: m in heads ==> heads[m] != head
      requires forall i :: i in nodes ==> nodes[i] != head
      ensures Apart(heads[l := head], nodes, lists[l := []], place)
    {}

    /** nimble_list_init on the node of a new object. */
    method AddNode(id: nat)
      requires Valid() && id !in nodes
      modifies this
      ensures Valid() && fresh(Repr - old(Repr)) && old(Repr) <= Repr && heads == old(heads)
      ensures nodes.Keys == old(nodes).Keys + {id} && lists == old(lists) && place == old(place)
    {
      hide Ring, NoDup, Apart;
      KeysOfApart();
      var node := new Node(id);
      NodesStay(id, node);
      nodes, Repr := nodes[id := node], Repr + {node};
    }

    lemma NodesStay(id: nat, node: Node)
      requires Apart(heads, nodes, lists, place) && id !in nodes && node.owner == id
      requires forall m :: m in heads ==> heads[m] != node
      ensures Apart(heads, nodes[id := node], lists, place)
      ensures forall m :: m in heads ==>
          NodesOf(nodes[id := node], lists[m], heads[m]) == NodesOf(nodes, lists[m], heads[m])
    {
      forall m | m in heads
        ensures NodesOf(nodes[id := node], lists[m], heads[m]) == NodesOf(nodes, lists[m], heads[m])
      {
        assert forall i :: 0 <= i < |lists[m]| ==> lists[m][i] in lists[m];
      }
    }

    /** nimble_list_init on the node of an object that has been in use: if it is on a list, the list is lost. */
    method Init(id: nat)
      requires Valid() && id in nodes
      modifies Repr
      ensures Repr == old(Repr) && heads == old(heads) && nodes == old(nodes)
      ensures lists == old(lists) && place == old(place)
      ensures id !in place ==> Valid()
      ensures id in place ==> place[id] in heads && Owned() && Lost(place[id])
    {
      hide Ring, NoDup, Apart, Forward;
      ghost var head, s := nodes[id], [];
      if id in place {
        OnItsList(id);
        head, s := heads[place[id]], NodesOn(place[id]);
      } else { Alone(id); }
      IntrusiveList.Init(nodes[id], head, s);
    }

    /** No walk from the head of the list comes back to it. */
    ghost predicate Lost(l: L)
      requires l in heads && Owned()
      reads this, Repr
    {
      forall n: nat :: n > 0 ==> Forward(heads[l], NodesOn(l), n) != heads[l]
    }

    /** In a valid state every walk does. */
    lemma NotLost(l: L)
      requires Valid() && l in heads
      ensures !Lost(l)
    {
      WalkReturns(heads[l], NodesOn(l), |NodesOn(l)| + 1);
    }

    method IsEmpty(l: L) returns (empty: bool)
      requires Valid() && l in heads
      ensures empty <==> lists[l] == []
    {
      empty := IntrusiveList.IsEmpty(heads[l], NodesOn(l));
    }

    /** The object whose node the head points to. */
    method First(l: L) returns (id: nat)
      requires Valid() && l in heads && lists[l] != []
      ensures id == lists[l][0]
    {
      assert NodesOn(l)[0] == nodes[lists[l][0]] by { assert lists[l][0] in lists[l]; }
      id := heads[l].next.owner;
    }

    /** The rings of the other lists, and those of the other nodes that are on none. */
    ghost predicate OtherRings(l: L, id: nat)
      requires Owned()
      reads this, Repr
    {
      && (forall m :: m in heads && m != l ==> Ring(heads[m], NodesOn(m)))
      && (forall i :: i in nodes && i != id && i !in place ==> Ring(nodes[i], []))
    }

    /** The writes of an insertion at the tail, and in front of the node at position `i`. */
    method LinkTail(l: L, id: nat)
      requires Valid() && l in heads && id in nodes && id !in place
      modifies heads[l], nodes[id], NodesOn(l)
      ensures Owned() && OtherRings(l, id) && Ring(heads[l], NodesOn(l) + [nodes[id]])
    {
      hide Ring, NoDup, Apart;
      Untouched(l, id);
      IntrusiveList.InsertTail(heads[l], nodes[id], NodesOn(l));
    }

    method LinkAt(l: L, id: nat, at: Node, ghost i: nat)
      requires Valid() && l in heads && id in nodes && id !in place && i <= |NodesOn(l)|
          && at == At(heads[l], NodesOn(l), i)
      modifies heads[l], nodes[id], NodesOn(l)
      ensures Owned() && OtherRings(l, id) && Ring(heads[l], InsertAt(NodesOn(l), i, nodes[id]))
    {
      hide Ring, NoDup, Apart, InsertAt;
      Untouched(l, id);
      LinkBefore(at, nodes[id], heads[l], NodesOn(l), i);
    }

    /** The writes of a removal, which read the node's own pointers only; `head` and `s` are its ring. */
    method Unlink(id: nat, ghost head: Node, ghost s: seq<Node>)
      requires Valid() && id in nodes && (id in place ==> place[id] in heads && nodes[id] in NodesOn(place[id]))
      requires (head, s) == if id in place then (heads[place[id]], NodesOn(place[id])) else (nodes[id], [])
      modifies head, nodes[id], s
      ensures Owned() && Ring(nodes[id], [])
      ensures id in place ==> OtherRings(place[id], id) && Ring(head, Without(s, nodes[id]))
      ensures id !in place ==> heads.Keys == lists.Keys && AllRings()
    {
      hide Ring, NoDup, Without, Apart;
      if id in place { Untouched(place[id], id); } else { Alone(id); }
      IntrusiveList.Remove(nodes[id], head, s);
    }

    lemma Alone(id: nat)
      requires Apart(heads, nodes, lists, place) && id in nodes && id !in place
      ensures heads.Keys == lists.Keys
      ensures forall m :: m in heads ==> heads[m] != nodes[id]
      ensures forall m, j {:trigger NodesOn(m)[j]} :: m in heads && 0 <= j < |NodesOn(m)| ==> NodesOn(m)[j] != nodes[id]
      ensures forall i :: i in nodes && i != id ==> nodes[i] != nodes[id]
    {
      forall m, j | m in heads && 0 <= j < |NodesOn(m)| ensures NodesOn(m)[j] != nodes[id] {
        Members(heads, nodes, lists, place, m);
        assert NodesOn(m)[j] in NodesOn(m);
      }
    }

    lemma OnItsList(id: nat)
      requires Apart(heads, nodes, lists, place) && id in place
      ensures place[id] in heads && nodes[id] in NodesOn(place[id]) && id in lists[place[id]]
    {
      var l := place[id];
      var i :| 0 <= i < |lists[l]| && lists[l][i] == id;
      assert NodesOn(l)[i] == nodes[id];
    }

    lemma Once(id: nat)
      requires Valid() && id in place
      ensures var l := place[id];
        && l in heads && l in lists && NodesOf(nodes, Without(lists[l], id), heads[l]) == Without(NodesOn(l), nodes[id])
        && forall x :: x in Without(lists[l], id) <==> x != id && x in lists[l]
    {
      WithoutMaps(nodes, lists[place[id]], heads[place[id]], id);
    }

    /** No object is on a list twice. */
    lemma Distinct(l: L)
      requires Valid() && l in heads
      ensures l in lists && NoDup(lists[l])
    {
      OnceEach(nodes, lists[l], heads[l]);
    }

    lemma InRepr(l: L)
      requires Owned() && Apart(heads, nodes, lists, place) && l in heads
      ensures l in lists && heads.Keys == lists.Keys && forall j :: 0 <= j < |NodesOn(l)| ==> NodesOn(l)[j] in Repr
    {
      assert forall j :: 0 <= j < |lists[l]| ==> lists[l][j] in lists[l];
    }

    /** The node of `id` is on list `l`, which is now `q`. */
    ghost method Place(l: L, id: nat, q: seq<nat>)
      requires Owned() && OtherRings(l, id) && l in heads && id in nodes
      requires Apart(heads, nodes, lists[l := q], place[id := l]) && Ring(heads[l], NodesOf(nodes, q, heads[l]))
      requires heads.Keys == lists.Keys
      modifies `lists, `place
      ensures Valid() && lists == old(lists)[l := q] && place == old(place)[id := l]
    {
      hide Ring, Apart;
      lists, place := lists[l := q], place[id := l];
      KeysOfApart();
    }

    /** The node of `id` has left its list, which is now `q`. */
    ghost method Displace(id: nat, q: seq<nat>)
      requires Owned() && id in place && place[id] in heads && id in nodes && OtherRings(place[id], id)
          && Ring(nodes[id], [])
      requires Apart(heads, nodes, lists[place[id] := q], place - {id})
      requires Ring(heads[place[id]], NodesOf(nodes, q, heads[place[id]])) && heads.Keys == lists.Keys
      modifies `lists, `place
      ensures Valid() && lists == old(lists)[old(place)[id] := q] && place == old(place) - {id}
    {
      hide Ring, Apart;
      lists, place := lists[place[id] := q], place - {id};
      KeysOfApart();
    }

    lemma KeysOfApart()
      requires Apart(heads, nodes, lists, place)
      ensures heads.Keys == lists.Keys
    {}

    // ---- the operations ------------------------------------------------------------------

    method InsertTail(l: L, id: nat)
      requires Valid() && l in heads && id in nodes && id !in place
      modifies Repr
      ensures Valid() && Repr == old(Repr) && heads == old(heads) && nodes == old(nodes)
      ensures lists == old(lists)[l := old(lists)[l] + [id]] && place == old(place)[id := l]
    {
      hide Ring, NoDup, Apart;
      InRepr(l);
      LinkTail(l, id);
      ghost var q := lists[l] + [id];
      JoinsList(heads, nodes, lists, place, l, id, q);
      assert NodesOf(nodes, q, heads[l]) == NodesOn(l) + [nodes[id]];
      Place(l, id, q);
    }

    /** A walk to the first object that `stops` it. */
    method Find(l: L, stops: nat -> bool) returns (at: Node, ghost i: nat)
      requires Valid() && l in heads
      ensures l in lists && at == At(heads[l], NodesOn(l), FirstStop(lists[l], stops))
      ensures i == FirstStop(lists[l], stops)
    {
      hide Ring, NoDup, Apart, FirstStop;
      InRepr(l);
      at, i := heads[l].next, 0;
      Walk(l, 0);
      while at != heads[l] && !stops(at.owner)
        invariant i <= |lists[l]| && at == At(heads[l], NodesOn(l), i)
        invariant forall j :: 0 <= j < i ==> !stops(lists[l][j])
        decreases |lists[l]| - i
      {
        Walk(l, i);
        at := at.next;
        i := i + 1;
      }
      Walk(l, i);
      FirstStopIs(lists[l], stops, i);
    }

    /** The sorted insertion: in front of the first object that stops the walk. */
    method InsertBefore(l: L, id: nat, stops: nat -> bool)
      requires Valid() && l in heads && id in nodes && id !in place
      modifies Repr
      ensures Valid() && Repr == old(Repr) && heads == old(heads) && nodes == old(nodes)
      ensures lists == old(lists)[l := InsertAt(old(lists)[l], FirstStop(old(lists)[l], stops), id)]
      ensures place == old(place)[id := l]
    {
      hide Ring, NoDup, Apart, InsertAt, FirstStop, At;
      InRepr(l);
      var at, i := Find(l, stops);
      LinkAt(l, id, at, i);
      ghost var q := InsertAt(lists[l], i, id);
      assert q[i] == id;
      JoinsList(heads, nodes, lists, place, l, id, q);
      InsertMaps(nodes, lists[l], heads[l], i, id);
      Place(l, id, q);
    }

    /** What a walk along the ring finds at position `i`. */
    lemma Walk(l: L, i: nat)
      requires Valid() && l in heads && i <= |lists[l]|
      ensures i == 0 ==> heads[l].next == At(heads[l], NodesOn(l), 0)
      ensures At(heads[l], NodesOn(l), i) == heads[l] <==> i == |lists[l]|
      ensures i < |lists[l]| ==> NodesOn(l)[i].owner == lists[l][i] && NodesOn(l)[i] == nodes[lists[l][i]]
      ensures i < |lists[l]| ==> NodesOn(l)[i].next == At(heads[l], NodesOn(l), i + 1)
    {
      if i < |lists[l]| { assert lists[l][i] in lists[l]; }
    }

    /** nimble_list_remove on the node of `id`: it leaves the list it is on, if any. */
    method Remove(id: nat)
      requires Valid() && id in nodes
      modifies Repr
      ensures Valid() && Repr == old(Repr) && heads == old(heads) && nodes == old(nodes)
      ensures place == old(place) - {id}
      ensures lists == if id in old(place) then old(lists)[old(place)[id] := Without(old(lists)[old(place)[id]], id)]
          else old(lists)
    {
      hide Ring, NoDup, Apart, Without;
      ghost var head, s := nodes[id], [];
      if id in place {
        OnItsList(id);
        InRepr(place[id]);
        Once(id);
        head, s := heads[place[id]], NodesOn(place[id]);
      }
      Unlink(id, head, s);
      if id in place {
        ghost var q := Without(lists[place[id]], id);
        LeavesList(heads, nodes, lists, place, id, q);
        Displace(id, q);
      }
    }
  }
}

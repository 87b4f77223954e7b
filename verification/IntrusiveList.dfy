/**
 * nimble_list.h on the heap: a list head and its nodes refine a sequence, and every operation on the pointers is
 * the operation on the sequence.
 */
module IntrusiveList {
  import opened Sequences

  /** `owner` is the object that contains the node, as NIMBLE_CONTAINER_OF finds it; it says nothing for a list head. */
  class Node {
    var next: Node
    var prev: Node
    const owner: nat

    /** nimble_list_init: a head of an empty list, or a node on no list. */
    constructor (owner: nat)
      ensures Ring(this, []) && this.owner == owner
    {
      next, prev := this, this;
      this.owner := owner;
    }
  }

  /** The node at position `i` of the ring, where the head closes it. */
  function At(head: Node, s: seq<Node>, i: nat): Node {
    if i < |s| then s[i] else head
  }

  function Predecessor(head: Node, s: seq<Node>, i: nat): Node
    requires i <= |s|
  {
    if i == 0 then head else s[i - 1]
  }

  /** `head` and the nodes of `s`, in that order, form one circular doubly linked list. */
  ghost predicate Ring(head: Node, s: seq<Node>)
    reads head, s
  {
    && head !in s && NoDup(s)
    && head.next == At(head, s, 0) && head.prev == Predecessor(head, s, |s|)
    && (forall i {:trigger s[i].next} :: 0 <= i < |s| ==> s[i].next == At(head, s, i + 1))
    && (forall i {:trigger s[i].prev} :: 0 <= i < |s| ==> s[i].prev == Predecessor(head, s, i))
  }

  /** Where `n` steps along `next` lead from the head of a list of the nodes `s`. */
  ghost function Forward(head: Node, s: seq<Node>, n: nat): Node
    reads head, s
  {
    if n == 0 then head
    else var x := Forward(head, s, n - 1); if x == head || x in s then x.next else x
  }

  /** A walk along a ring meets the nodes in order, and then the head again. */
  lemma {:induction false} WalkReturns(head: Node, s: seq<Node>, n: nat)
    requires Ring(head, s) && 0 < n <= |s| + 1
    ensures Forward(head, s, n) == At(head, s, n - 1)
  {
    if n > 1 { WalkReturns(head, s, n - 1); }
  }

  // ---- nimble_list.h ---------------------------------------------------------------------

  /**
   * nimble_list_init on a node that has been in use. One that is on no list stays an empty ring. One that is on a list
   * cuts it: no walk from the head comes back to the head, so no loop over the list ends.
   */
  method Init(node: Node, ghost head: Node, ghost s: seq<Node>)
    requires Ring(head, s) && (node in s || (node == head && s == []))
    modifies node
    ensures node !in s ==> Ring(node, [])
    ensures node in s ==> forall n: nat :: n > 0 ==> Forward(head, s, n) != head
  {
    node.next := node;
    node.prev := node;
    if node in s {
      ghost var p := IndexOf(s, node);
      forall n: nat | n > 0 ensures Forward(head, s, n) != head { WalkIsCut(head, s, p, n); }
    }
  }

  lemma {:induction false} WalkIsCut(head: Node, s: seq<Node>, p: nat, n: nat)
    requires p < |s| && head !in s && head.next == s[0] && s[p].next == s[p] && n > 0
    requires forall i {:trigger s[i].next} :: 0 <= i < p ==> s[i].next == s[i + 1]
    ensures Forward(head, s, n) == s[if n - 1 <= p then n - 1 else p] && Forward(head, s, n) != head
  {
    if n > 1 { WalkIsCut(head, s, p, n - 1); }
  }

  method IsEmpty(list: Node, ghost s: seq<Node>) returns (empty: bool)
    requires Ring(list, s)
    ensures empty <==> s == []
  {
    empty := list.next == list;
  }

  /** The links of a ring of `s` into which `node` has been put at position `i`. */
  ghost predicate Inserted(head: Node, s: seq<Node>, i: nat, node: Node)
    requires i <= |s|
    reads head, s, node
  {
    && head !in s && NoDup(s) && node != head && node !in s
    && node.next == At(head, s, i) && node.prev == Predecessor(head, s, i)
    && head.next == (if i == 0 then node else At(head, s, 0))
        && head.prev == (if i == |s| then node else Predecessor(head, s, |s|))
    && (forall j {:trigger s[j].next} :: 0 <= j < |s| ==> s[j].next == if j + 1 == i then node else At(head, s, j + 1))
    && (forall j {:trigger s[j].prev} :: 0 <= j < |s| ==> s[j].prev == if j == i then node else Predecessor(head, s, j))
  }

  lemma InsertedIsRing(head: Node, s: seq<Node>, i: nat, node: Node)
    requires i <= |s| && Inserted(head, s, i, node)
    ensures Ring(head, InsertAt(s, i, node))
  {
    var r := InsertAt(s, i, node);
    InsertNoDup(s, i, node);
    assert forall j :: 0 <= j < |r| ==> r[j] == if j < i then s[j] else if j == i then node else s[j - 1];
    hide NoDup, InsertAt;
  }

  /** The four pointer writes that put `node` in front of `at`. */
  method LinkBefore(at: Node, node: Node, ghost head: Node, ghost s: seq<Node>, ghost i: nat)
    requires Ring(head, s) && i <= |s| && at == At(head, s, i) && node != head && node !in s
    modifies head, node, s
    ensures Ring(head, InsertAt(s, i, node))
  {
    assert at.prev == Predecessor(head, s, i);
    node.next := at;
    node.prev := at.prev;
    at.prev.next := node;
    at.prev := node;
    assert Inserted(head, s, i, node);
    InsertedIsRing(head, s, i, node);
  }

  method InsertTail(head: Node, node: Node, ghost s: seq<Node>)
    requires Ring(head, s) && node != head && node !in s
    modifies head, node, s
    ensures Ring(head, s + [node])
  {
    node.prev := head.prev;
    node.next := head;
    head.prev.next := node;
    head.prev := node;
    AppendNoDup(s, node);
  }

  method InsertHead(head: Node, node: Node, ghost s: seq<Node>)
    requires Ring(head, s) && node != head && node !in s
    modifies head, node, s
    ensures Ring(head, [node] + s)
  {
    node.next := head.next;
    node.prev := head;
    head.next.prev := node;
    head.next := node;
  }

  /** The links of a ring of `s` from which the node at position `p` has been taken. */
  ghost predicate Bridged(head: Node, s: seq<Node>, p: nat)
    requires p < |s|
    reads head, s
  {
    && head !in s && NoDup(s)
    && head.next == (if p == 0 then At(head, s, 1) else At(head, s, 0))
    && head.prev == (if p + 1 == |s| then Predecessor(head, s, p) else Predecessor(head, s, |s|))
    && (forall j {:trigger s[j].next} ::
          0 <= j < |s| && j != p ==> s[j].next == if j + 1 == p then At(head, s, p + 1) else At(head, s, j + 1))
    && (forall j {:trigger s[j].prev} :: 0 <= j < |s| && j != p ==>
          s[j].prev == if j == p + 1 then Predecessor(head, s, p) else Predecessor(head, s, j))
  }

  lemma BridgedIsRing(head: Node, s: seq<Node>, p: nat)
    requires p < |s| && Bridged(head, s, p)
    ensures Ring(head, Without(s, s[p]))
  {
    var r := Without(s, s[p]);
    WithoutNoDup(s, s[p]);
    WithoutKeepsOrder(s, s[p]);
    assert IndexOf(s, s[p]) == p;
    hide NoDup, Without, IndexOf;
    assert |r| == |s| - 1 && forall j :: 0 <= j < |r| ==> r[j] == if j < p then s[j] else s[j + 1];
    forall j | 0 <= j < |r| ensures r[j].next == At(head, r, j + 1) && r[j].prev == Predecessor(head, r, j) {
      var i := if j < p then j else j + 1;
      assert r[j] == s[i];
    }
  }

  /** nimble_list_remove: the node leaves the list it is on; a self-linked one, which is on none, stays as it is. */
  method Remove(node: Node, ghost head: Node, ghost s: seq<Node>)
    requires Ring(head, s) && (node in s || (node == head && s == []))
    modifies node, head, s
    ensures Ring(node, []) && (node in s ==> Ring(head, Without(s, node)))
  {
    node.prev.next := node.next;
    node.next.prev := node.prev;
    node.next := node;
    node.prev := node;
    if node in s {
      assert Bridged(head, s, IndexOf(s, node));
      BridgedIsRing(head, s, IndexOf(s, node));
    }
  }
}

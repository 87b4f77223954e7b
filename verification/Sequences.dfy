/** Sequence operations that specify what the intrusive lists do. */
module Sequences {
  ghost predicate NoDup<T>(s: seq<T>) {
    forall i, j :: 0 <= i < j < |s| ==> s[i] != s[j]
  }

  function IndexOf<T(==)>(s: seq<T>, x: T): (i: nat)
    requires x in s
    ensures i < |s| && s[i] == x && x !in s[..i]
  {
    if s[0] == x then 0 else 1 + IndexOf(s[1..], x)
  }

  /** What is left of `s` once the node of `x` is unlinked. */
  function Without<T(==)>(s: seq<T>, x: T): (r: seq<T>)
    ensures x !in s ==> r == s
    ensures forall y :: y in s && y != x ==> y in r
    ensures forall y :: y in r ==> y in s
  {
    if x in s then
      var i := IndexOf(s, x);
      assert s == s[..i] + [x] + s[i + 1..];
      s[..i] + s[i + 1..]
    else s
  }

  lemma WithoutNoDup<T>(s: seq<T>, x: T)
    requires NoDup(s)
    ensures NoDup(Without(s, x)) && x !in Without(s, x)
  {}

  lemma AppendNoDup<T>(s: seq<T>, x: T)
    requires NoDup(s) && x !in s
    ensures NoDup(s + [x])
  {}

  /** Unlinking keeps the rest in order: positions before the removed one stay, later ones move down by one. */
  lemma WithoutKeepsOrder<T>(s: seq<T>, x: T)
    ensures x in s ==> |Without(s, x)| == |s| - 1
    ensures x in s ==> forall i :: 0 <= i < |s| - 1 ==>
      Without(s, x)[i] == if i < IndexOf(s, x) then s[i] else s[i + 1]
  {}

  /** Unlinking, one node at a time. */
  lemma WithoutStep<T>(s: seq<T>, x: T)
    requires s != []
    ensures Without(s, x) == if s[0] == x then s[1..] else [s[0]] + Without(s[1..], x)
  {}

  lemma WithoutHead<T>(s: seq<T>)
    requires s != []
    ensures Without(s, s[0]) == s[1..]
  {}

  function InsertAt<T>(s: seq<T>, i: nat, x: T): (r: seq<T>)
    requires i <= |s|
    ensures |r| == |s| + 1 && r[i] == x
    ensures forall j :: 0 <= j < i ==> r[j] == s[j]
    ensures forall j :: i < j < |r| ==> r[j] == s[j - 1]
    ensures forall y :: y in s ==> y in r
    ensures forall y :: y in r ==> y == x || y in s
  {
    assert s == s[..i] + s[i..];
    s[..i] + [x] + s[i..]
  }

  lemma InsertNoDup<T>(s: seq<T>, i: nat, x: T)
    requires i <= |s| && NoDup(s) && x !in s
    ensures NoDup(InsertAt(s, i, x))
  {}

  /** Where the priority-sorted insertion loops stop: at the first key strictly below `k`. */
  function FirstBelow(keys: seq<int>, k: int): (i: nat)
    ensures i <= |keys|
    ensures forall j :: 0 <= j < i ==> keys[j] >= k
    ensures i < |keys| ==> keys[i] < k
  {
    if keys == [] || keys[0] < k then 0 else 1 + FirstBelow(keys[1..], k)
  }
}

/** `Array.prototype.sort` with a comparator, as the catalog views use it on a
    copy of the product list: modelled as an insertion sort in place on an
    array, for any ordering that is total and transitive. */
module Sorting {
  /** The comparator orders every pair and its order is transitive. */
  ghost predicate IsTotalPreorder<T(!new)>(le: (T, T) -> bool) {
    && (forall a, b :: le(a, b) || le(b, a))
    && (forall a, b, c :: le(a, b) && le(b, c) ==> le(a, c))
  }

  /** Every earlier element is ordered before every later one. */
  predicate SortedBy<T(!new)>(s: seq<T>, le: (T, T) -> bool) {
    forall p, q :: 0 <= p < q < |s| ==> le(s[p], s[q])
  }

  /** Sorts `a` in place: the result is ordered and holds the same elements. */
  method SortInPlace<T(!new)>(a: array<T>, le: (T, T) -> bool)
    requires IsTotalPreorder(le)
    modifies a
    ensures SortedBy(a[..], le)
    ensures multiset(a[..]) == multiset(old(a[..]))
  {
    var i := 0;
    while i < a.Length
      invariant 0 <= i <= a.Length
      invariant forall p, q :: 0 <= p < q < i ==> le(a[p], a[q])
      invariant multiset(a[..]) == multiset(old(a[..]))
    {
      Insert(a, i, le);
      i := i + 1;
    }
    assert a[..] == a[..a.Length];
  }

  /** Moves `a[i]` down into the ordered prefix `a[..i]`, leaving `a[..i + 1]` ordered. */
  method Insert<T(!new)>(a: array<T>, i: nat, le: (T, T) -> bool)
    requires IsTotalPreorder(le)
    requires i < a.Length
    requires forall p, q :: 0 <= p < q < i ==> le(a[p], a[q])
    modifies a
    ensures forall p, q :: 0 <= p < q <= i ==> le(a[p], a[q])
    ensures multiset(a[..]) == multiset(old(a[..]))
  {
    var j := i;
    while j > 0 && !le(a[j - 1], a[j])
      invariant 0 <= j <= i
      invariant multiset(a[..]) == multiset(old(a[..]))
      invariant forall p, q :: 0 <= p < q <= i && p != j && q != j ==> le(a[p], a[q])
      invariant forall q :: j < q <= i ==> le(a[j], a[q])
    {
      Swap(a, j - 1, j);
      j := j - 1;
    }
    Placed(a, i, j, le);
  }

  /** Exchanges two elements. */
  method Swap<T>(a: array<T>, x: nat, y: nat)
    requires x < a.Length && y < a.Length
    modifies a
    ensures a[..] == old(a[..])[x := old(a[y])][y := old(a[x])]
    ensures multiset(a[..]) == multiset(old(a[..]))
  {
    a[x], a[y] := a[y], a[x];
  }

  /** Once `a[j]` is no smaller than its left neighbour, the prefix is ordered. */
  lemma Placed<T(!new)>(a: array<T>, i: nat, j: nat, le: (T, T) -> bool)
    requires IsTotalPreorder(le)
    requires j <= i < a.Length
    requires j == 0 || le(a[j - 1], a[j])
    requires forall p, q :: 0 <= p < q <= i && p != j && q != j ==> le(a[p], a[q])
    requires forall q :: j < q <= i ==> le(a[j], a[q])
    ensures forall p, q :: 0 <= p < q <= i ==> le(a[p], a[q])
  {
    forall p, q | 0 <= p < q <= i ensures le(a[p], a[q]) {
      if q == j && p < j - 1 {
        assert le(a[p], a[j - 1]);
      }
    }
  }

  /** Sorts a copy of `s`; `s` itself, a value, is untouched. */
  method SortedCopy<T(!new)>(s: seq<T>, le: (T, T) -> bool) returns (r: seq<T>)
    requires IsTotalPreorder(le)
    ensures SortedBy(r, le)
    ensures multiset(r) == multiset(s)
    ensures |r| == |s|
  {
    if |s| == 0 {
      return [];
    }
    var a := new T[|s|](i requires 0 <= i < |s| => s[i]);
    assert a[..] == s;
    SortInPlace(a, le);
    r := a[..];
    assert |r| == |multiset(r)| == |multiset(s)| == |s|;
  }
}

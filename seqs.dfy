/** Sequence operations the TypeScript code uses through Array.prototype:
    filter, includes, find, the "toggle" idiom (filter out if present, else
    append), de-duplication through a Set, slice(0, n) and numeric sums. */
module Seqs {

  /** Array.prototype.filter: the elements satisfying `p`, in their original order. */
  function Filter<T(==,!new)>(s: seq<T>, p: T -> bool): (r: seq<T>)
    ensures |r| <= |s|
    ensures forall x :: x in r <==> x in s && p(x)
    ensures forall i :: 0 <= i < |r| ==> p(r[i])
  {
    if s == [] then []
    else if p(s[0]) then [s[0]] + Filter(s[1..], p)
    else Filter(s[1..], p)
  }

  /** Filtering distributes over concatenation, so relative order is kept. */
  lemma {:induction false} FilterAppend<T(!new)>(a: seq<T>, b: seq<T>, p: T -> bool)
    ensures Filter(a + b, p) == Filter(a, p) + Filter(b, p)
  {
    if a == [] {
      assert a + b == b;
    } else {
      assert (a + b)[1..] == a[1..] + b;
      FilterAppend(a[1..], b, p);
    }
  }

  /** Filtering twice by the same predicate is filtering once. */
  lemma {:induction false} FilterIdempotent<T(!new)>(s: seq<T>, p: T -> bool)
    ensures Filter(Filter(s, p), p) == Filter(s, p)
  {
    if s != [] {
      FilterIdempotent(s[1..], p);
    }
  }

  /** Filters whose predicates agree on the elements give the same result. */
  lemma {:induction false} FilterCongruent<T(!new)>(s: seq<T>, p: T -> bool, q: T -> bool)
    requires forall i :: 0 <= i < |s| ==> p(s[i]) == q(s[i])
    ensures Filter(s, p) == Filter(s, q)
  {
    if s != [] {
      FilterCongruent(s[1..], p, q);
    }
  }

  /** A filter that rejects nothing in `s` returns `s` itself. */
  lemma {:induction false} FilterKeepsAll<T(!new)>(s: seq<T>, p: T -> bool)
    requires forall i :: 0 <= i < |s| ==> p(s[i])
    ensures Filter(s, p) == s
  {
    if s != [] {
      FilterKeepsAll(s[1..], p);
    }
  }

  /** `favorites.filter(id => id !== x)`: every occurrence of `x` removed. */
  function Remove<T(==,!new)>(s: seq<T>, x: T): (r: seq<T>)
    ensures x !in r
    ensures forall y :: y != x ==> (y in r <==> y in s)
  {
    Filter(s, y => y != x)
  }

  /** Removing a value that does not occur changes nothing. */
  lemma RemoveAbsent<T(!new)>(s: seq<T>, x: T)
    requires x !in s
    ensures Remove(s, x) == s
  {
    FilterKeepsAll(s, y => y != x);
  }

  /** The toggle idiom shared by favorites and checked documents:
      `s.includes(x) ? s.filter(y => y !== x) : [...s, x]`. */
  function Toggle<T(==,!new)>(s: seq<T>, x: T): (r: seq<T>)
    ensures (x in r) == (x !in s)
    ensures forall y :: y != x ==> (y in r <==> y in s)
  {
    if x in s then Remove(s, x) else s + [x]
  }

  /** Toggling an absent value twice gives back the original sequence;
      toggling a present one twice moves it to the end. */
  lemma ToggleTwice<T(!new)>(s: seq<T>, x: T)
    ensures x !in s ==> Toggle(Toggle(s, x), x) == s
    ensures x in s ==> Toggle(Toggle(s, x), x) == Remove(s, x) + [x]
  {
    if x !in s {
      assert x in s + [x];
      FilterAppend(s, [x], y => y != x);
      RemoveAbsent(s, x);
    }
  }

  /** No element occurs twice. */
  predicate Distinct<T(==,!new)>(s: seq<T>) {
    forall i, j :: 0 <= i < j < |s| ==> s[i] != s[j]
  }

  /** A filter of a duplicate-free sequence is duplicate-free. */
  lemma {:induction false} FilterDistinct<T(!new)>(s: seq<T>, p: T -> bool)
    requires Distinct(s)
    ensures Distinct(Filter(s, p))
  {
    if s != [] {
      FilterDistinct(s[1..], p);
      assert s[0] !in s[1..];
    }
  }

  /** Toggling keeps a duplicate-free sequence duplicate-free. */
  lemma ToggleDistinct<T(!new)>(s: seq<T>, x: T)
    requires Distinct(s)
    ensures Distinct(Toggle(s, x))
  {
    if x in s {
      FilterDistinct(s, y => y != x);
    }
  }

  /** A duplicate-free sequence drawn from a finite set is no longer than the set. */
  lemma {:induction false} DistinctBounded<T(!new)>(s: seq<T>, universe: set<T>)
    requires Distinct(s)
    requires forall x :: x in s ==> x in universe
    ensures |s| <= |universe|
  {
    if s != [] {
      var rest := s[1..];
      assert s[0] !in rest;
      forall x | x in rest ensures x in universe - {s[0]} {
      }
      DistinctBounded(rest, universe - {s[0]});
    }
  }

  /** Array.prototype.find: the first element satisfying `p`, if any. */
  function Find<T(==,!new)>(s: seq<T>, p: T -> bool): (r: Option<T>)
    ensures r.None? <==> forall i :: 0 <= i < |s| ==> !p(s[i])
    ensures r.Some? ==> exists i :: 0 <= i < |s| && s[i] == r.value && p(s[i])
                                   && forall j :: 0 <= j < i ==> !p(s[j])
  {
    if s == [] then None
    else if p(s[0]) then Some(s[0])
    else
      var r := Find(s[1..], p);
      if r.Some? then
        var i :| 0 <= i < |s[1..]| && s[1..][i] == r.value && p(s[1..][i])
                 && forall j :: 0 <= j < i ==> !p(s[1..][j]);
        assert s[i + 1] == r.value && forall j :: 0 <= j < i + 1 ==> !p(s[j]);
        r
      else r
  }

  /** `[...new Set(s)]`: the distinct elements in order of first appearance. */
  function Dedup<T(==,!new)>(s: seq<T>): (r: seq<T>)
    ensures Distinct(r)
    ensures forall x :: x in r <==> x in s
    ensures |r| <= |s|
  {
    if s == [] then []
    else
      var init := Dedup(s[..|s| - 1]);
      var last := s[|s| - 1];
      assert forall x :: x in s <==> x in s[..|s| - 1] || x == last;
      if last in init then init else init + [last]
  }

  /** Dedup keeps first-appearance order: a value's position in the result
      follows the positions of its first occurrences. */
  lemma {:induction false} DedupFirstAppearance<T(!new)>(s: seq<T>, i: nat, j: nat)
    requires i < j < |Dedup(s)|
    ensures exists a, b :: 0 <= a < b < |s| && s[a] == Dedup(s)[i] && s[b] == Dedup(s)[j]
                           && Dedup(s)[j] !in s[..b]
  {
    var init := Dedup(s[..|s| - 1]);
    var last := s[|s| - 1];
    assert s[..|s| - 1][..|s| - 1] == s[..|s| - 1];
    if j < |init| {
      DedupFirstAppearance(s[..|s| - 1], i, j);
      var a, b :| 0 <= a < b < |s| - 1 && s[..|s| - 1][a] == init[i] && s[..|s| - 1][b] == init[j]
                  && init[j] !in s[..|s| - 1][..b];
      assert s[..b] == s[..|s| - 1][..b];
      assert Dedup(s)[i] == init[i] && Dedup(s)[j] == init[j];
    } else {
      assert Dedup(s) == init + [last] && Dedup(s)[j] == last && last !in init;
      assert init[i] in s[..|s| - 1];
      var a :| 0 <= a < |s| - 1 && s[..|s| - 1][a] == init[i];
      var b := |s| - 1;
      assert s[a] == Dedup(s)[i] && s[b] == Dedup(s)[j] && s[..b] == s[..|s| - 1];
    }
  }

  /** `s.slice(0, n)` for n >= 0. */
  function Take<T(==,!new)>(s: seq<T>, n: nat): (r: seq<T>)
    ensures |r| == if |s| < n then |s| else n
    ensures r == s[..|r|]
  {
    if |s| <= n then s else s[..n]
  }

  /** Sum of a sequence of reals, folded from the left as `reduce((a, b) => a + b, 0)` does. */
  function SumReals(s: seq<real>): real {
    if s == [] then 0.0 else SumReals(s[..|s| - 1]) + s[|s| - 1]
  }

  /** Summation splits over concatenation. */
  lemma {:induction false} SumRealsAppend(a: seq<real>, b: seq<real>)
    ensures SumReals(a + b) == SumReals(a) + SumReals(b)
  {
    if b != [] {
      assert (a + b)[..|a + b| - 1] == a + b[..|b| - 1];
      SumRealsAppend(a, b[..|b| - 1]);
    } else {
      assert a + b == a;
    }
  }

  /** Summing the tail of a non-empty sequence. */
  lemma SumRealsCons(s: seq<real>)
    requires s != []
    ensures SumReals(s) == s[0] + SumReals(s[1..])
  {
    assert s == [s[0]] + s[1..];
    SumRealsAppend([s[0]], s[1..]);
  }

  datatype Option<+T> = None | Some(value: T)
}

/** The reduce idiom `acc[key] = (acc[key] || 0) + value` over a list, which
    both the dashboard's token distribution and the trend chart's category
    values use. A JavaScript object keeps its string keys in insertion order,
    so the result is modelled as a list of entries, one per distinct key, in
    order of first appearance. */
module Grouping {
  import opened Seqs

  datatype Entry<K> = Entry(key: K, total: real)

  function KeysOf<K(!new)>(g: seq<Entry<K>>): (ks: seq<K>)
    ensures |ks| == |g|
    ensures forall i :: 0 <= i < |g| ==> ks[i] == g[i].key
  {
    seq(|g|, i requires 0 <= i < |g| => g[i].key)
  }

  function PairKeys<K(!new)>(pairs: seq<(K, real)>): (ks: seq<K>)
    ensures |ks| == |pairs|
    ensures forall i :: 0 <= i < |pairs| ==> ks[i] == pairs[i].0
  {
    seq(|pairs|, i requires 0 <= i < |pairs| => pairs[i].0)
  }

  /** One reduce step: add `v` to the entry for `k`, creating it at the end when new. */
  function AddTo<K(==,!new)>(g: seq<Entry<K>>, k: K, v: real): (r: seq<Entry<K>>)
    ensures KeysOf(r) == if k in KeysOf(g) then KeysOf(g) else KeysOf(g) + [k]
  {
    if g == [] then [Entry(k, v)]
    else
      KeysOfCons(g[0], g[1..]);
      assert [g[0]] + g[1..] == g;
      if g[0].key == k then
        KeysOfCons(Entry(k, g[0].total + v), g[1..]);
        [Entry(k, g[0].total + v)] + g[1..]
      else
        var rest := AddTo(g[1..], k, v);
        KeysOfCons(g[0], rest);
        [g[0]] + rest
  }

  lemma KeysOfCons<K(!new)>(e: Entry<K>, rest: seq<Entry<K>>)
    ensures KeysOf([e] + rest) == [e.key] + KeysOf(rest)
  {
    var l := KeysOf([e] + rest);
    var r := [e.key] + KeysOf(rest);
    forall i | 0 <= i < |l| ensures l[i] == r[i] {
      if i > 0 {
        assert ([e] + rest)[i] == rest[i - 1];
      }
    }
  }

  /** The object the reduce builds from (key, value) pairs. */
  function Grouped<K(==,!new)>(pairs: seq<(K, real)>): (g: seq<Entry<K>>)
  {
    if pairs == [] then []
    else
      var last := pairs[|pairs| - 1];
      AddTo(Grouped(pairs[..|pairs| - 1]), last.0, last.1)
  }

  /** The reduce itself: one pass over the pairs, updating the accumulator in place. */
  method GroupSums<K(==,!new)>(pairs: seq<(K, real)>) returns (acc: seq<Entry<K>>)
    ensures acc == Grouped(pairs)
  {
    acc := [];
    var i := 0;
    while i < |pairs|
      invariant 0 <= i <= |pairs|
      invariant acc == Grouped(pairs[..i])
    {
      assert pairs[..i + 1][..i] == pairs[..i];
      assert Grouped(pairs[..i + 1]) == AddTo(Grouped(pairs[..i]), pairs[i].0, pairs[i].1);
      acc := AddTo(acc, pairs[i].0, pairs[i].1);
      i := i + 1;
    }
    assert pairs[..i] == pairs;
  }

  /** The sum of the values paired with `k`. */
  function KeySum<K(==,!new)>(pairs: seq<(K, real)>, k: K): real {
    if pairs == [] then 0.0
    else KeySum(pairs[..|pairs| - 1], k) + (if pairs[|pairs| - 1].0 == k then pairs[|pairs| - 1].1 else 0.0)
  }

  /** The sum of all values. */
  function PairsTotal<K(!new)>(pairs: seq<(K, real)>): real {
    if pairs == [] then 0.0 else PairsTotal(pairs[..|pairs| - 1]) + pairs[|pairs| - 1].1
  }

  /** The sum of the entries' totals. */
  function EntriesTotal<K(!new)>(g: seq<Entry<K>>): real {
    if g == [] then 0.0 else g[0].total + EntriesTotal(g[1..])
  }

  /** Appending an entry adds its total. */
  lemma {:induction false} EntriesTotalSnoc<K(!new)>(g: seq<Entry<K>>, e: Entry<K>)
    ensures EntriesTotal(g + [e]) == EntriesTotal(g) + e.total
  {
    if g != [] {
      assert (g + [e])[1..] == g[1..] + [e];
      EntriesTotalSnoc(g[1..], e);
    }
  }

  /** The keys of the object are the distinct keys of the input, in order of first appearance. */
  lemma {:induction false} GroupedKeys<K(!new)>(pairs: seq<(K, real)>)
    ensures KeysOf(Grouped(pairs)) == Dedup(PairKeys(pairs))
  {
    if pairs != [] {
      var init := pairs[..|pairs| - 1];
      GroupedKeys(init);
      assert PairKeys(pairs)[..|pairs| - 1] == PairKeys(init);
    }
  }

  /** Hence every key of the input has exactly one entry. */
  lemma GroupedKeysDistinct<K(!new)>(pairs: seq<(K, real)>)
    ensures Distinct(KeysOf(Grouped(pairs)))
    ensures forall k :: k in KeysOf(Grouped(pairs)) <==> k in PairKeys(pairs)
  {
    GroupedKeys(pairs);
  }

  /** Where `AddTo` puts the added value, when the keys are distinct. */
  lemma {:induction false} AddToValue<K(!new)>(g: seq<Entry<K>>, k: K, v: real, i: nat)
    requires Distinct(KeysOf(g))
    requires i < |AddTo(g, k, v)|
    ensures AddTo(g, k, v)[i].total ==
      (if i < |g| then g[i].total else 0.0) + (if AddTo(g, k, v)[i].key == k then v else 0.0)
    ensures i < |g| ==> AddTo(g, k, v)[i].key == g[i].key
  {
    var r := AddTo(g, k, v);
    assert KeysOf(r)[i] == r[i].key;
    if g != [] && i > 0 {
      assert KeysOf(g[1..]) == KeysOf(g)[1..];
      assert g[0].key == k ==> r[i] == g[i] && g[i].key != k;
      if g[0].key != k {
        AddToValue(g[1..], k, v, i - 1);
      }
    }
  }

  /** Each entry's total is the sum of the values paired with its key. */
  lemma {:induction false} GroupedValues<K(!new)>(pairs: seq<(K, real)>, i: nat)
    requires i < |Grouped(pairs)|
    ensures Grouped(pairs)[i].total == KeySum(pairs, Grouped(pairs)[i].key)
  {
    var g := Grouped(pairs);
    var init := pairs[..|pairs| - 1];
    var last := pairs[|pairs| - 1];
    var g0 := Grouped(init);
    GroupedKeysDistinct(pairs);
    GroupedKeysDistinct(init);
    AddToValue(g0, last.0, last.1, i);
    assert KeysOf(g)[i] == g[i].key;
    if i < |g0| {
      GroupedValues(init, i);
    } else {
      assert KeysOf(g) == KeysOf(g0) + [last.0];
      assert g[i].key == last.0 && last.0 !in KeysOf(g0);
      KeySumAbsent(init, last.0);
    }
  }

  /** A key that does not occur sums to zero. */
  lemma {:induction false} KeySumAbsent<K(!new)>(pairs: seq<(K, real)>, k: K)
    requires k !in PairKeys(pairs)
    ensures KeySum(pairs, k) == 0.0
  {
    if pairs != [] {
      assert PairKeys(pairs)[..|pairs| - 1] == PairKeys(pairs[..|pairs| - 1]);
      KeySumAbsent(pairs[..|pairs| - 1], k);
    }
  }

  /** Adding to an entry raises the entries' total by exactly the added value. */
  lemma {:induction false} AddToTotal<K(!new)>(g: seq<Entry<K>>, k: K, v: real)
    ensures EntriesTotal(AddTo(g, k, v)) == EntriesTotal(g) + v
  {
    if g != [] && g[0].key != k {
      AddToTotal(g[1..], k, v);
      assert AddTo(g, k, v)[1..] == AddTo(g[1..], k, v);
    } else if g != [] {
      assert AddTo(g, k, v)[1..] == g[1..];
    }
  }

  /** The entries' totals add up to the sum of all values. */
  lemma {:induction false} GroupedTotal<K(!new)>(pairs: seq<(K, real)>)
    ensures EntriesTotal(Grouped(pairs)) == PairsTotal(pairs)
  {
    if pairs != [] {
      var last := pairs[|pairs| - 1];
      GroupedTotal(pairs[..|pairs| - 1]);
      AddToTotal(Grouped(pairs[..|pairs| - 1]), last.0, last.1);
    }
  }

  /** Filtering entries keeps their keys distinct. */
  lemma FilterKeepsKeysDistinct<K(!new)>(g: seq<Entry<K>>, p: Entry<K> -> bool)
    requires Distinct(KeysOf(g))
    ensures Distinct(KeysOf(Filter(g, p)))
  {
    var f := Filter(g, p);
    forall a, b | 0 <= a < b < |g| ensures g[a] != g[b] {
      assert KeysOf(g)[a] != KeysOf(g)[b];
    }
    FilterDistinct(g, p);
    forall i, j | 0 <= i < j < |f| ensures KeysOf(f)[i] != KeysOf(f)[j] {
      if f[i].key == f[j].key {
        SameKeySameEntry(g, f[i], f[j]);
      }
    }
  }

  /** With distinct keys, an entry is determined by its key. */
  lemma SameKeySameEntry<K(!new)>(g: seq<Entry<K>>, x: Entry<K>, y: Entry<K>)
    requires Distinct(KeysOf(g)) && x in g && y in g && x.key == y.key
    ensures x == y
  {
    var a :| 0 <= a < |g| && g[a] == x;
    var b :| 0 <= b < |g| && g[b] == y;
    assert KeysOf(g)[a] == KeysOf(g)[b];
  }
}

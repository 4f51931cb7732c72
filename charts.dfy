/** What the two trend charts share: a 31-point mock history produced by a
    clamped multiplicative random walk, and the merge of several histories
    into one record per day, keyed by series name. `Math.random` is an input
    (a draw in [0, 1) per call, in call order) and so is the date label of
    "n days ago". */
module Charts {
  import opened Seqs

  /** One result of `Math.random()`. */
  type Draw = r: real | 0.0 <= r < 1.0

  datatype Point = Point(date: string, value: real)

  /** The history spans today and the thirty days before it. */
  const Days: nat := 30

  function Max(a: real, b: real): (r: real)
    ensures r >= a && r >= b && (r == a || r == b)
  {
    if a >= b then a else b
  }

  /** One day of the walk: the value moves by `(r - drift) * volatility * value`
      and is then held at or above `floor`. */
  function Step(value: real, r: Draw, volatility: real, drift: real, floor: real): (v: real)
    ensures v >= floor
    ensures v == floor || v == value * (1.0 + (r - drift) * volatility)
  {
    Max(value + (r - drift) * volatility * value, floor)
  }

  /** The running value after the first `n` steps. */
  function Walk(start: real, steps: seq<Draw>, volatility: real, drift: real, floor: real, n: nat): real
    requires n <= |steps|
  {
    if n == 0 then start
    else Step(Walk(start, steps, volatility, drift, floor, n - 1), steps[n - 1], volatility, drift, floor)
  }

  /** The history the generators return: the point for `30 - k` days ago holds
      the walk after `k + 1` steps, except today's, which holds the current value. */
  function HistoryPoints(start: real, current: real, steps: seq<Draw>, volatility: real, drift: real,
                         floor: real, dateLabel: nat -> string): (r: seq<Point>)
    requires |steps| == Days + 1
    ensures |r| == Days + 1
  {
    seq(Days + 1, k requires 0 <= k <= Days =>
      Point(dateLabel(Days - k), if k == Days then current else Walk(start, steps, volatility, drift, floor, k + 1)))
  }

  /** The generator loop: from `Days` days ago to today, step the value and push a
      point, then overwrite the last point's value with the current one. */
  method History(start: real, current: real, steps: seq<Draw>, volatility: real, drift: real,
                 floor: real, dateLabel: nat -> string) returns (data: seq<Point>)
    requires |steps| == Days + 1
    ensures data == HistoryPoints(start, current, steps, volatility, drift, floor, dateLabel)
  {
    var value := start;
    data := [];
    var i: int := Days;
    while i >= 0
      invariant -1 <= i <= Days
      invariant |data| == Days - i
      invariant value == Walk(start, steps, volatility, drift, floor, Days - i)
      invariant forall k :: 0 <= k < |data| ==>
        data[k] == Point(dateLabel(Days - k), Walk(start, steps, volatility, drift, floor, k + 1))
    {
      value := Step(value, steps[Days - i], volatility, drift, floor);
      data := data + [Point(dateLabel(i), value)];
      i := i - 1;
    }
    data := data[Days := Point(data[Days].date, current)];
  }

  /** The draws the `j`-th history consumes: the histories are generated one
      after the other, each calling `Math.random` once for
      its start and once per day. */
  function DrawsFor(rand: nat -> Draw, j: nat): (r: seq<Draw>)
    ensures |r| == Days + 2
  {
    seq(Days + 2, t requires 0 <= t < Days + 2 => rand(j * (Days + 2) + t))
  }

  /** Every running value after the first step respects the floor. */
  lemma WalkFloor(start: real, steps: seq<Draw>, volatility: real, drift: real, floor: real, n: nat)
    requires 1 <= n <= |steps|
    ensures Walk(start, steps, volatility, drift, floor, n) >= floor
  {
  }

  /** What the history promises: 31 points dated oldest first, today's value
      exactly the current one, every earlier value at or above the floor, and
      each earlier value one step from the one before it. */
  lemma HistoryShape(start: real, current: real, steps: seq<Draw>, volatility: real, drift: real,
                     floor: real, dateLabel: nat -> string)
    requires |steps| == Days + 1
    ensures var h := HistoryPoints(start, current, steps, volatility, drift, floor, dateLabel);
      && (forall k :: 0 <= k <= Days ==> h[k].date == dateLabel(Days - k))
      && h[Days].value == current
      && (forall k :: 0 <= k < Days ==> h[k].value >= floor)
      && h[0].value == Step(start, steps[0], volatility, drift, floor)
      && (forall k :: 0 < k < Days ==> h[k].value == Step(h[k - 1].value, steps[k], volatility, drift, floor))
  {
    var h := HistoryPoints(start, current, steps, volatility, drift, floor, dateLabel);
    assert h[0].value == Walk(start, steps, volatility, drift, floor, 1);
    assert Walk(start, steps, volatility, drift, floor, 0) == start;
    forall k | 0 <= k < Days ensures h[k].value >= floor {
      WalkFloor(start, steps, volatility, drift, floor, k + 1);
    }
    forall k | 0 < k < Days ensures h[k].value == Step(h[k - 1].value, steps[k], volatility, drift, floor) {
      assert h[k].value == Walk(start, steps, volatility, drift, floor, k + 1);
      assert h[k - 1].value == Walk(start, steps, volatility, drift, floor, k);
    }
  }

  /** Before the floor applies, a step scales a positive value by a factor in
      [1 - drift * volatility, 1 + (1 - drift) * volatility). */
  lemma StepFactor(value: real, r: Draw, volatility: real, drift: real)
    requires value > 0.0 && volatility > 0.0
    ensures (1.0 - drift * volatility) * value <= value + (r - drift) * volatility * value
    ensures value + (r - drift) * volatility * value < (1.0 + (1.0 - drift) * volatility) * value
  {
    assert r * (volatility * value) >= 0.0;
    assert (1.0 - r) * (volatility * value) > 0.0;
  }

  /** The walk starts at `current * (low + r * span)`: between `low` and
      `low + span` times a positive current value. */
  lemma StartBounds(current: real, r: Draw, low: real, span: real)
    requires current > 0.0 && span > 0.0
    ensures low * current <= current * (low + r * span) < (low + span) * current
  {
    assert r * span * current >= 0.0;
    assert (1.0 - r) * span * current > 0.0;
  }

  /** A merged record: the date label under "date" and one number per series. */
  datatype Cell = Label(s: string) | Number(v: real)

  type Record = map<string, Cell>

  /** A named history: the series' key in the merged records and its points. */
  datatype Series = Series(key: string, history: seq<Point>)

  function SeriesKeys(hs: seq<Series>): (ks: seq<string>)
    ensures |ks| == |hs|
    ensures forall j :: 0 <= j < |hs| ==> ks[j] == hs[j].key
  {
    seq(|hs|, j requires 0 <= j < |hs| => hs[j].key)
  }

  /** `histories[0]?.history[i]?.date || ''`. */
  function DateAt(hs: seq<Series>, i: nat): string {
    if |hs| > 0 && i < |hs[0].history| then hs[0].history[i].date else ""
  }

  /** Record `i` after the first `n` series have been visited. */
  function RecordUpTo(hs: seq<Series>, i: nat, n: nat): Record
    requires n <= |hs|
  {
    if n == 0 then map["date" := Label(DateAt(hs, i))]
    else
      var r := RecordUpTo(hs, i, n - 1);
      if i < |hs[n - 1].history| then r[hs[n - 1].key := Number(hs[n - 1].history[i].value)] else r
  }

  function RecordAt(hs: seq<Series>, i: nat): Record {
    RecordUpTo(hs, i, |hs|)
  }

  /** The merge loop: for each of the 31 days, a record with the first
      history's date label, to which every history with a point that day adds
      its value under its key. */
  method Merge(hs: seq<Series>) returns (data: seq<Record>)
    ensures |data| == Days + 1
    ensures forall i :: 0 <= i <= Days ==> data[i] == RecordAt(hs, i)
  {
    data := [];
    var i := 0;
    while i < Days + 1
      invariant 0 <= i <= Days + 1
      invariant |data| == i
      invariant forall k :: 0 <= k < i ==> data[k] == RecordAt(hs, k)
    {
      var dataPoint: Record := map["date" := Label(DateAt(hs, i))];
      var j := 0;
      while j < |hs|
        invariant 0 <= j <= |hs|
        invariant dataPoint == RecordUpTo(hs, i, j)
      {
        if i < |hs[j].history| {
          dataPoint := dataPoint[hs[j].key := Number(hs[j].history[i].value)];
        }
        j := j + 1;
      }
      data := data + [dataPoint];
      i := i + 1;
    }
  }

  /** With distinct series keys, none of them "date", a record holds the date
      label, and holds a series' key exactly when that series has a point for
      the day, with that point's value; it holds no other key. */
  lemma RecordFields(hs: seq<Series>, i: nat, n: nat)
    requires n <= |hs|
    requires Distinct(SeriesKeys(hs)) && "date" !in SeriesKeys(hs)
    ensures "date" in RecordUpTo(hs, i, n) && RecordUpTo(hs, i, n)["date"] == Label(DateAt(hs, i))
    ensures forall j :: 0 <= j < n ==> (hs[j].key in RecordUpTo(hs, i, n) <==> i < |hs[j].history|)
    ensures forall j :: 0 <= j < n && i < |hs[j].history| ==>
      RecordUpTo(hs, i, n)[hs[j].key] == Number(hs[j].history[i].value)
    ensures forall k :: k in RecordUpTo(hs, i, n) ==> k == "date" || k in SeriesKeys(hs)[..n]
  {
    RecordDate(hs, i, n);
    RecordSeries(hs, i, n);
    RecordNoOtherKeys(hs, i, n);
  }

  /** The date label survives every series' update. */
  lemma {:induction false} RecordDate(hs: seq<Series>, i: nat, n: nat)
    requires n <= |hs| && "date" !in SeriesKeys(hs)
    ensures "date" in RecordUpTo(hs, i, n) && RecordUpTo(hs, i, n)["date"] == Label(DateAt(hs, i))
  {
    if n > 0 {
      RecordDate(hs, i, n - 1);
      assert hs[n - 1].key != "date" by { assert SeriesKeys(hs)[n - 1] == hs[n - 1].key; }
    }
  }

  /** The first `n` series each contribute their point for the day, if any;
      a later series never overwrites an earlier one's key, nor the date. */
  lemma {:induction false} RecordSeries(hs: seq<Series>, i: nat, n: nat)
    requires n <= |hs| && Distinct(SeriesKeys(hs)) && "date" !in SeriesKeys(hs)
    ensures forall j :: 0 <= j < n ==> (hs[j].key in RecordUpTo(hs, i, n) <==> i < |hs[j].history|)
    ensures forall j :: 0 <= j < n && i < |hs[j].history| ==>
      RecordUpTo(hs, i, n)[hs[j].key] == Number(hs[j].history[i].value)
  {
    if n > 0 {
      RecordSeries(hs, i, n - 1);
      var last := hs[n - 1];
      assert hs[n - 1].key != "date" by { assert SeriesKeys(hs)[n - 1] == hs[n - 1].key; }
      forall j | 0 <= j < n - 1 ensures hs[j].key != last.key {
        assert SeriesKeys(hs)[j] != SeriesKeys(hs)[n - 1];
      }
      RecordNoOtherKeys(hs, i, n - 1);
      assert last.key !in SeriesKeys(hs)[..n - 1];
    }
  }

  /** A record holds no key besides the date and the series keys. */
  lemma {:induction false} RecordNoOtherKeys(hs: seq<Series>, i: nat, n: nat)
    requires n <= |hs|
    ensures forall k :: k in RecordUpTo(hs, i, n) ==> k == "date" || k in SeriesKeys(hs)[..n]
  {
    if n > 0 {
      RecordNoOtherKeys(hs, i, n - 1);
      var ks := SeriesKeys(hs);
      assert ks[..n] == ks[..n - 1] + [ks[n - 1]];
    }
  }
}

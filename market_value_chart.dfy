/** The market-value trend chart: the holdings' values summed per asset
    category, one mock 31-day history per category with a positive sum, and
    the histories merged into one record per day. */
module MarketValueChart {
  import opened Seqs
  import opened Types
  import opened Grouping
  import opened Charts

  /** The fields of a holding the chart reads. */
  datatype ChartAsset = ChartAsset(token: string, value: real, balance: real, price: real, category: AssetCategory)

  /** `volatilityMap`: how far a category's value moves in a day. */
  function Volatility(c: AssetCategory): (r: real)
    ensures r > 0.0
  {
    match c
    case Crypto => 0.05
    case TokenisedGold => 0.02
    case TokenisedMmf => 0.005
    case Stablecoin => 0.001
  }

  /** Riskier categories move more: crypto, then gold, then money-market funds,
      then stablecoins. */
  lemma VolatilityOrder()
    ensures Volatility(Crypto) > Volatility(TokenisedGold) > Volatility(TokenisedMmf) > Volatility(Stablecoin)
  {
  }

  /** The category's name as a key of the merged records. */
  function CategoryKey(c: AssetCategory): (k: string)
    ensures k != "date"
  {
    match c
    case Crypto => "crypto"
    case TokenisedMmf => "tokenised_mmf"
    case TokenisedGold => "tokenised_gold"
    case Stablecoin => "stablecoin"
  }

  lemma CategoryKeyInjective(a: AssetCategory, b: AssetCategory)
    ensures CategoryKey(a) == CategoryKey(b) ==> a == b
  {
  }

  /** The history `generateMarketValueHistory` returns: the first draw sets the
      start at 80-95% of the current value, the other 31 drive the walk with
      drift 0.4 and floor 0. */
  function MarketValueHistory(currentValue: real, category: AssetCategory, draws: seq<Draw>,
                              dateLabel: nat -> string): (h: seq<Point>)
    requires |draws| == Days + 2
    ensures |h| == Days + 1 && h[Days].value == currentValue
    ensures forall k :: 0 <= k <= Days ==> h[k].date == dateLabel(Days - k)
  {
    HistoryPoints(currentValue * (0.8 + draws[0] * 0.15), currentValue, draws[1..],
                  Volatility(category), 0.4, 0.0, dateLabel)
  }

  method GenerateMarketValueHistory(currentValue: real, category: AssetCategory, draws: seq<Draw>,
                                    dateLabel: nat -> string) returns (data: seq<Point>)
    requires |draws| == Days + 2
    ensures data == MarketValueHistory(currentValue, category, draws, dateLabel)
  {
    var value := currentValue * (0.8 + draws[0] * 0.15);
    data := History(value, currentValue, draws[1..], Volatility(category), 0.4, 0.0, dateLabel);
  }

  /** Every walked value of the market-value history is non-negative (the last
      point is the current value itself, so the whole history is when that is),
      and the walk starts at 80-95% of a positive current value. */
  lemma MarketValueHistorySpec(currentValue: real, category: AssetCategory, draws: seq<Draw>,
                               dateLabel: nat -> string)
    requires |draws| == Days + 2
    ensures forall k :: 0 <= k < Days ==> MarketValueHistory(currentValue, category, draws, dateLabel)[k].value >= 0.0
    ensures currentValue >= 0.0 ==>
      forall k :: 0 <= k <= Days ==> MarketValueHistory(currentValue, category, draws, dateLabel)[k].value >= 0.0
    ensures currentValue > 0.0 ==>
      0.8 * currentValue <= currentValue * (0.8 + draws[0] * 0.15) < 0.95 * currentValue
  {
    HistoryShape(currentValue * (0.8 + draws[0] * 0.15), currentValue, draws[1..],
                 Volatility(category), 0.4, 0.0, dateLabel);
    if currentValue > 0.0 {
      StartBounds(currentValue, draws[0], 0.8, 0.15);
    }
  }

  /** Before the floor applies, a day moves a positive value by a factor in
      [1 - 0.4 v, 1 + 0.6 v), v being the category's volatility. */
  lemma MarketValueStepFactor(value: real, r: Draw, category: AssetCategory)
    requires value > 0.0
    ensures (1.0 - 0.4 * Volatility(category)) * value <= value + (r - 0.4) * Volatility(category) * value
    ensures value + (r - 0.4) * Volatility(category) * value < (1.0 + 0.6 * Volatility(category)) * value
  {
    StepFactor(value, r, Volatility(category), 0.4);
  }

  /** The (category, value) pairs the category reduce reads. */
  function CategoryPairs(assets: seq<ChartAsset>): (r: seq<(AssetCategory, real)>)
    ensures |r| == |assets|
    ensures forall i :: 0 <= i < |assets| ==> r[i] == (assets[i].category, assets[i].value)
  {
    seq(|assets|, i requires 0 <= i < |assets| => (assets[i].category, assets[i].value))
  }

  /** `categoryValues` restricted to `activeCategories`: the per-category sums
      that are positive, in order of first appearance. */
  function ActiveEntries(assets: seq<ChartAsset>): seq<Entry<AssetCategory>> {
    Filter(Grouped(CategoryPairs(assets)), (e: Entry<AssetCategory>) => e.total > 0.0)
  }

  /** The charted categories are distinct, at most four, and exactly those whose
      holdings sum to a positive value; each carries that sum. */
  lemma ActiveCategoriesSpec(assets: seq<ChartAsset>)
    ensures Distinct(KeysOf(ActiveEntries(assets)))
    ensures |ActiveEntries(assets)| <= 4
    ensures forall c :: c in KeysOf(ActiveEntries(assets)) <==> KeySum(CategoryPairs(assets), c) > 0.0
    ensures forall j :: 0 <= j < |ActiveEntries(assets)| ==>
      ActiveEntries(assets)[j].total == KeySum(CategoryPairs(assets), ActiveEntries(assets)[j].key)
  {
    var act := ActiveEntries(assets);
    GroupedKeysDistinct(CategoryPairs(assets));
    FilterKeepsKeysDistinct(Grouped(CategoryPairs(assets)), (e: Entry<AssetCategory>) => e.total > 0.0);
    forall c | c in KeysOf(act) ensures c in {Crypto, TokenisedMmf, TokenisedGold, Stablecoin} {
      assert c.Crypto? || c.TokenisedMmf? || c.TokenisedGold? || c.Stablecoin?;
    }
    DistinctBounded(KeysOf(act), {Crypto, TokenisedMmf, TokenisedGold, Stablecoin});
    ActiveTotals(assets);
    forall c ensures c in KeysOf(act) <==> KeySum(CategoryPairs(assets), c) > 0.0 {
      ActiveMembership(assets, c);
    }
  }

  /** Each active entry carries its category's sum. */
  lemma ActiveTotals(assets: seq<ChartAsset>)
    ensures forall j :: 0 <= j < |ActiveEntries(assets)| ==>
      ActiveEntries(assets)[j].total == KeySum(CategoryPairs(assets), ActiveEntries(assets)[j].key)
  {
    var pairs := CategoryPairs(assets);
    var g := Grouped(pairs);
    var act := ActiveEntries(assets);
    forall j | 0 <= j < |act| ensures act[j].total == KeySum(pairs, act[j].key) {
      assert act[j] in g;
      var i :| 0 <= i < |g| && g[i] == act[j];
      GroupedValues(pairs, i);
    }
  }

  /** A category is active exactly when its holdings sum to a positive value. */
  lemma ActiveMembership(assets: seq<ChartAsset>, c: AssetCategory)
    ensures c in KeysOf(ActiveEntries(assets)) <==> KeySum(CategoryPairs(assets), c) > 0.0
  {
    if c in KeysOf(ActiveEntries(assets)) {
      ActiveHasPositiveSum(assets, c);
    }
    if KeySum(CategoryPairs(assets), c) > 0.0 {
      PositiveSumIsActive(assets, c);
    }
  }

  /** An active category's holdings sum to a positive value. */
  lemma ActiveHasPositiveSum(assets: seq<ChartAsset>, c: AssetCategory)
    requires c in KeysOf(ActiveEntries(assets))
    ensures KeySum(CategoryPairs(assets), c) > 0.0
  {
    var act := ActiveEntries(assets);
    var j :| 0 <= j < |act| && KeysOf(act)[j] == c;
    ActiveTotals(assets);
  }

  /** A category whose holdings sum to a positive value is active. */
  lemma PositiveSumIsActive(assets: seq<ChartAsset>, c: AssetCategory)
    requires KeySum(CategoryPairs(assets), c) > 0.0
    ensures c in KeysOf(ActiveEntries(assets))
  {
    var pairs := CategoryPairs(assets);
    var g := Grouped(pairs);
    GroupedKeysDistinct(pairs);
    if c in KeysOf(g) {
      var i :| 0 <= i < |g| && KeysOf(g)[i] == c;
      GroupedValues(pairs, i);
      assert g[i] in ActiveEntries(assets);
    } else {
      KeySumAbsent(pairs, c);
    }
  }

  /** `categoryHistories`. */
  function Histories(active: seq<Entry<AssetCategory>>, rand: nat -> Draw, dateLabel: nat -> string): (hs: seq<Series>)
    ensures |hs| == |active|
    ensures forall j :: 0 <= j < |active| ==> hs[j].key == CategoryKey(active[j].key)
  {
    seq(|active|, j requires 0 <= j < |active| =>
      Series(CategoryKey(active[j].key), MarketValueHistory(active[j].total, active[j].key, DrawsFor(rand, j), dateLabel)))
  }

  /** The `map` over the active categories that draws each one's history. */
  method GenerateHistories(active: seq<Entry<AssetCategory>>, rand: nat -> Draw, dateLabel: nat -> string)
    returns (histories: seq<Series>)
    ensures histories == Histories(active, rand, dateLabel)
  {
    histories := [];
    var j := 0;
    while j < |active|
      invariant 0 <= j <= |active|
      invariant histories == Histories(active, rand, dateLabel)[..j]
    {
      var history := GenerateMarketValueHistory(active[j].total, active[j].key, DrawsFor(rand, j), dateLabel);
      assert Histories(active, rand, dateLabel)[j] == Series(CategoryKey(active[j].key), history);
      assert Histories(active, rand, dateLabel)[..j + 1] == Histories(active, rand, dateLabel)[..j] + [Series(CategoryKey(active[j].key), history)];
      histories := histories + [Series(CategoryKey(active[j].key), history)];
      j := j + 1;
    }
    assert histories == Histories(active, rand, dateLabel)[..|active|];
  }

  /** `chartData`: nothing without holdings or without a positive category;
      otherwise the active categories and 31 merged records. */
  method ChartData(assets: seq<ChartAsset>, rand: nat -> Draw, dateLabel: nat -> string)
    returns (data: seq<Record>, categories: seq<AssetCategory>)
    ensures ActiveEntries(assets) == [] ==> data == [] && categories == []
    ensures ActiveEntries(assets) != [] ==>
      && categories == KeysOf(ActiveEntries(assets))
      && |data| == Days + 1
      && forall i :: 0 <= i <= Days ==> data[i] == RecordAt(Histories(ActiveEntries(assets), rand, dateLabel), i)
  {
    if |assets| == 0 {
      return [], [];
    }
    var categoryValues := GroupSums(CategoryPairs(assets));
    var active := Filter(categoryValues, (e: Entry<AssetCategory>) => e.total > 0.0);
    if |active| == 0 {
      return [], [];
    }
    assert active == ActiveEntries(assets);
    var histories := GenerateHistories(active, rand, dateLabel);
    data := Merge(histories);
    categories := KeysOf(active);
  }

  /** Distinct categories give distinct series keys. */
  lemma HistoriesKeysDistinct(active: seq<Entry<AssetCategory>>, rand: nat -> Draw, dateLabel: nat -> string)
    requires Distinct(KeysOf(active))
    ensures Distinct(SeriesKeys(Histories(active, rand, dateLabel)))
    ensures "date" !in SeriesKeys(Histories(active, rand, dateLabel))
  {
    var hs := Histories(active, rand, dateLabel);
    forall a, b | 0 <= a < b < |hs| ensures SeriesKeys(hs)[a] != SeriesKeys(hs)[b] {
      assert KeysOf(active)[a] != KeysOf(active)[b];
      CategoryKeyInjective(active[a].key, active[b].key);
    }
  }

  /** In every merged record, each active category's field holds its history's
      value for that day, the last record holds each category's current sum,
      and the date is the label of the day. */
  lemma HistoryRecords(act: seq<Entry<AssetCategory>>, rand: nat -> Draw, dateLabel: nat -> string, i: nat, j: nat)
    requires Distinct(KeysOf(act))
    requires i <= Days && j < |act|
    ensures var hs := Histories(act, rand, dateLabel);
      && CategoryKey(act[j].key) in RecordAt(hs, i)
      && RecordAt(hs, i)[CategoryKey(act[j].key)] == Number(hs[j].history[i].value)
      && (i == Days ==> RecordAt(hs, i)[CategoryKey(act[j].key)] == Number(act[j].total))
      && "date" in RecordAt(hs, i) && RecordAt(hs, i)["date"] == Label(dateLabel(Days - i))
  {
    var hs := Histories(act, rand, dateLabel);
    HistoriesKeysDistinct(act, rand, dateLabel);
    RecordFields(hs, i, |hs|);
    assert hs[j].history == MarketValueHistory(act[j].total, act[j].key, DrawsFor(rand, j), dateLabel);
    assert hs[0].history == MarketValueHistory(act[0].total, act[0].key, DrawsFor(rand, 0), dateLabel);
  }
}

/** The price trend chart: up to four distinct tokens, one mock 31-day price
    history each, starting from the first matching holding's price, merged
    into one record per day. */
module PriceChart {
  import opened Seqs
  import opened Charts

  /** The fields of a holding the chart reads. */
  datatype PricedAsset = PricedAsset(token: string, price: real, category: string)

  /** The daily volatility: bitcoin and ether move six times as much as the rest. */
  function PriceVolatility(token: string): (r: real)
    ensures token == "BTC" || token == "ETH" ==> r == 0.03
    ensures token != "BTC" && token != "ETH" ==> r == 0.005
  {
    if token == "BTC" || token == "ETH" then 0.03 else 0.005
  }

  /** The history `generatePriceHistory` returns: the first draw sets the start
      at 85-95% of the current price, the other 31 drive the walk with drift
      0.45 and floor 0.01. */
  function PriceHistory(currentPrice: real, token: string, draws: seq<Draw>, dateLabel: nat -> string): (h: seq<Point>)
    requires |draws| == Days + 2
    ensures |h| == Days + 1 && h[Days].value == currentPrice
    ensures forall k :: 0 <= k <= Days ==> h[k].date == dateLabel(Days - k)
  {
    HistoryPoints(currentPrice * (0.85 + draws[0] * 0.1), currentPrice, draws[1..],
                  PriceVolatility(token), 0.45, 0.01, dateLabel)
  }

  method GeneratePriceHistory(currentPrice: real, token: string, draws: seq<Draw>, dateLabel: nat -> string)
    returns (data: seq<Point>)
    requires |draws| == Days + 2
    ensures data == PriceHistory(currentPrice, token, draws, dateLabel)
  {
    var price := currentPrice * (0.85 + draws[0] * 0.1);
    data := History(price, currentPrice, draws[1..], PriceVolatility(token), 0.45, 0.01, dateLabel);
  }

  /** Every price of the history before today's is at least 0.01, and the walk
      starts at 85-95% of a positive current price. */
  lemma PriceHistorySpec(currentPrice: real, token: string, draws: seq<Draw>, dateLabel: nat -> string)
    requires |draws| == Days + 2
    ensures forall k :: 0 <= k < Days ==> PriceHistory(currentPrice, token, draws, dateLabel)[k].value >= 0.01
    ensures currentPrice >= 0.01 ==>
      forall k :: 0 <= k <= Days ==> PriceHistory(currentPrice, token, draws, dateLabel)[k].value >= 0.01
    ensures currentPrice > 0.0 ==>
      0.85 * currentPrice <= currentPrice * (0.85 + draws[0] * 0.1) < 0.95 * currentPrice
  {
    HistoryShape(currentPrice * (0.85 + draws[0] * 0.1), currentPrice, draws[1..],
                 PriceVolatility(token), 0.45, 0.01, dateLabel);
    if currentPrice > 0.0 {
      StartBounds(currentPrice, draws[0], 0.85, 0.1);
    }
  }

  /** Before the floor applies, a day moves a positive price by
      `(r - 0.45) * volatility * price`, a factor in [1 - 0.45 v, 1 + 0.55 v). */
  lemma PriceStepFactor(price: real, r: Draw, token: string)
    requires price > 0.0
    ensures (1.0 - 0.45 * PriceVolatility(token)) * price <= price + (r - 0.45) * PriceVolatility(token) * price
    ensures price + (r - 0.45) * PriceVolatility(token) * price < (1.0 + 0.55 * PriceVolatility(token)) * price
  {
    StepFactor(price, r, PriceVolatility(token), 0.45);
  }

  function Tokens(assets: seq<PricedAsset>): (r: seq<string>)
    ensures |r| == |assets|
    ensures forall i :: 0 <= i < |assets| ==> r[i] == assets[i].token
  {
    seq(|assets|, i requires 0 <= i < |assets| => assets[i].token)
  }

  /** `uniqueTokens`: the distinct tokens in order of first appearance, at most four. */
  function ChartTokens(assets: seq<PricedAsset>): seq<string> {
    Take(Dedup(Tokens(assets)), 4)
  }

  /** The charted tokens are distinct tokens of the holdings, at most four,
      the first four to appear; there are four whenever the holdings have at
      least four distinct tokens, and at least one whenever there are holdings. */
  lemma ChartTokensSpec(assets: seq<PricedAsset>)
    ensures |ChartTokens(assets)| <= 4
    ensures Distinct(ChartTokens(assets))
    ensures forall t :: t in ChartTokens(assets) ==> exists i :: 0 <= i < |assets| && assets[i].token == t
    ensures ChartTokens(assets) == Dedup(Tokens(assets))[..|ChartTokens(assets)|]
    ensures |Dedup(Tokens(assets))| >= 4 ==> |ChartTokens(assets)| == 4
    ensures assets != [] ==> ChartTokens(assets) != []
  {
    var d := Dedup(Tokens(assets));
    var r := ChartTokens(assets);
    forall a, b | 0 <= a < b < |r| ensures r[a] != r[b] {
      assert r[a] == d[a] && r[b] == d[b];
    }
    forall t | t in r ensures exists i :: 0 <= i < |assets| && assets[i].token == t {
      assert t in d;
      assert t in Tokens(assets);
    }
    if assets != [] {
      assert Tokens(assets)[0] in d;
    }
  }

  /** `asset?.price || 1`: the price of the first holding of the token, with a
      zero price (falsy) and a missing holding both replaced by 1. */
  function CurrentPrice(assets: seq<PricedAsset>, token: string): real {
    match Find(assets, (a: PricedAsset) => a.token == token)
    case Some(a) => if a.price == 0.0 then 1.0 else a.price
    case None => 1.0
  }

  /** The current price is never zero: it is the first matching holding's
      non-zero price, or 1 when that price is zero or no holding matches. */
  lemma CurrentPriceSpec(assets: seq<PricedAsset>, token: string)
    ensures CurrentPrice(assets, token) != 0.0
    ensures forall i :: 0 <= i < |assets| && assets[i].token == token
                        && (forall k :: 0 <= k < i ==> assets[k].token != token) ==>
                        CurrentPrice(assets, token) == (if assets[i].price == 0.0 then 1.0 else assets[i].price)
    ensures (forall i :: 0 <= i < |assets| ==> assets[i].token != token) ==> CurrentPrice(assets, token) == 1.0
  {
  }

  /** `tokenHistories`. */
  function Histories(tokens: seq<string>, assets: seq<PricedAsset>, rand: nat -> Draw, dateLabel: nat -> string)
    : (hs: seq<Series>)
    ensures |hs| == |tokens|
    ensures forall j :: 0 <= j < |tokens| ==> hs[j].key == tokens[j]
  {
    seq(|tokens|, j requires 0 <= j < |tokens| =>
      Series(tokens[j], PriceHistory(CurrentPrice(assets, tokens[j]), tokens[j], DrawsFor(rand, j), dateLabel)))
  }

  /** The `map` over the charted tokens that draws each one's price history. */
  method GenerateHistories(tokens: seq<string>, assets: seq<PricedAsset>, rand: nat -> Draw, dateLabel: nat -> string)
    returns (histories: seq<Series>)
    ensures histories == Histories(tokens, assets, rand, dateLabel)
  {
    ghost var all := Histories(tokens, assets, rand, dateLabel);
    histories := [];
    var j := 0;
    while j < |tokens|
      invariant 0 <= j <= |tokens|
      invariant histories == all[..j]
    {
      var price := CurrentPrice(assets, tokens[j]);
      var history := GeneratePriceHistory(price, tokens[j], DrawsFor(rand, j), dateLabel);
      assert all[j] == Series(tokens[j], history);
      assert all[..j + 1] == all[..j] + [all[j]];
      histories := histories + [Series(tokens[j], history)];
      j := j + 1;
    }
    assert all[..|tokens|] == all;
  }

  /** `chartData`: nothing without holdings; otherwise the charted tokens and
      31 merged records. */
  method ChartData(assets: seq<PricedAsset>, rand: nat -> Draw, dateLabel: nat -> string)
    returns (data: seq<Record>, tokens: seq<string>)
    ensures assets == [] ==> data == [] && tokens == []
    ensures assets != [] ==>
      && tokens == ChartTokens(assets)
      && |data| == Days + 1
      && forall i :: 0 <= i <= Days ==> data[i] == RecordAt(Histories(tokens, assets, rand, dateLabel), i)
  {
    if |assets| == 0 {
      return [], [];
    }
    tokens := ChartTokens(assets);
    var histories := GenerateHistories(tokens, assets, rand, dateLabel);
    data := Merge(histories);
  }

  /** In every merged record each charted token's field holds its history's
      price for that day, the last record holds the token's current price, and
      the date is the day's label, provided no token is literally named "date"
      (whose price would overwrite the label). */
  lemma PriceRecords(assets: seq<PricedAsset>, rand: nat -> Draw, dateLabel: nat -> string, i: nat, j: nat)
    requires "date" !in ChartTokens(assets)
    requires i <= Days && j < |ChartTokens(assets)|
    ensures var tokens := ChartTokens(assets);
      var hs := Histories(tokens, assets, rand, dateLabel);
      && tokens[j] in RecordAt(hs, i)
      && RecordAt(hs, i)[tokens[j]] == Number(hs[j].history[i].value)
      && (i == Days ==> RecordAt(hs, i)[tokens[j]] == Number(CurrentPrice(assets, tokens[j])))
      && "date" in RecordAt(hs, i) && RecordAt(hs, i)["date"] == Label(dateLabel(Days - i))
  {
    var tokens := ChartTokens(assets);
    var hs := Histories(tokens, assets, rand, dateLabel);
    ChartTokensSpec(assets);
    assert SeriesKeys(hs) == tokens;
    RecordFields(hs, i, |hs|);
    assert hs[j].history == PriceHistory(CurrentPrice(assets, tokens[j]), tokens[j], DrawsFor(rand, j), dateLabel);
    assert hs[0].history == PriceHistory(CurrentPrice(assets, tokens[0]), tokens[0], DrawsFor(rand, 0), dateLabel);
  }
}

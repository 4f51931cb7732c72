/** The multi-wallet portfolio dashboard: connected wallets, their mock
    holdings, the wallet filter, the headline figures (total value,
    value-weighted APY, monthly earnings), the per-token distribution and the
    pie chart built from it. */
module DashboardV2 {
  import opened Seqs
  import opened JsNumber
  import opened Grouping
  import opened WalletConnector

  datatype Wallet = Wallet(id: string, address: string, kind: WalletType, name: string)

  datatype Asset = Asset(token: string, balance: real, value: real, apy: real, chain: string, walletId: string)

  /** The four holdings every newly connected wallet receives. */
  function MockAssets(walletId: string): (r: seq<Asset>)
    ensures |r| == 4
    ensures forall i :: 0 <= i < |r| ==> r[i].walletId == walletId && r[i].value > 0.0
    ensures [r[0].token, r[1].token, r[2].token, r[3].token] == ["USDY", "BUIDL", "sDAI", "USDe"]
  {
    [ Asset("USDY", 125000.0, 130421.25, 5.25, "Ethereum", walletId),
      Asset("BUIDL", 500000.0, 500000.0, 4.89, "Ethereum", walletId),
      Asset("sDAI", 85000.0, 90535.35, 6.12, "Ethereum", walletId),
      Asset("USDe", 200000.0, 200000.0, 12.45, "Ethereum", walletId) ]
  }

  /** The selection filters only when it is a non-empty id: `null` and the
      (falsy) empty string both mean "all wallets". */
  predicate Selects(selected: Option<string>) {
    selected.Some? && selected.value != ""
  }

  /** The holdings on show for the current wallet selection. */
  function FilteredAssets(assets: seq<Asset>, selected: Option<string>): (r: seq<Asset>)
    ensures !Selects(selected) ==> r == assets
    ensures Selects(selected) ==> forall a :: a in r <==> a in assets && a.walletId == selected.value
  {
    if Selects(selected) then Filter(assets, (a: Asset) => a.walletId == selected.value) else assets
  }

  /** Filtering keeps the holdings' order: the holdings of a concatenation are
      the holdings of each part, one after the other. */
  lemma FilteredAssetsAppend(a: seq<Asset>, b: seq<Asset>, selected: Option<string>)
    ensures FilteredAssets(a + b, selected) == FilteredAssets(a, selected) + FilteredAssets(b, selected)
  {
    if Selects(selected) {
      FilterAppend(a, b, (x: Asset) => x.walletId == selected.value);
    }
  }

  /** `reduce((sum, a) => sum + a.value, 0)`. */
  function TotalValue(assets: seq<Asset>): real {
    if assets == [] then 0.0 else TotalValue(assets[..|assets| - 1]) + assets[|assets| - 1].value
  }

  /** With no negative holding, the total is at least every single holding's
      value, and so never negative. */
  lemma {:induction false} TotalValueBounds(assets: seq<Asset>)
    requires forall i :: 0 <= i < |assets| ==> assets[i].value >= 0.0
    ensures TotalValue(assets) >= 0.0
    ensures forall i :: 0 <= i < |assets| ==> TotalValue(assets) >= assets[i].value
  {
    if assets != [] {
      var init := assets[..|assets| - 1];
      assert forall i :: 0 <= i < |init| ==> init[i] == assets[i];
      TotalValueBounds(init);
    }
  }

  /** `reduce((sum, a) => sum + a.apy * a.value, 0)`. */
  function ApyValueSum(assets: seq<Asset>): real {
    if assets == [] then 0.0
    else ApyValueSum(assets[..|assets| - 1]) + assets[|assets| - 1].apy * assets[|assets| - 1].value
  }

  /** Value-weighted APY. The guard tests the number of holdings, not their
      total, so holdings that are all worth zero give NaN. */
  function WeightedApy(assets: seq<Asset>): (r: Num)
    ensures |assets| == 0 ==> r == Finite(0.0)
    ensures |assets| > 0 ==> (r.Finite? <==> TotalValue(assets) != 0.0)
    ensures |assets| > 0 && r.Finite? ==> r.v * TotalValue(assets) == ApyValueSum(assets)
  {
    if |assets| > 0 then Div(Finite(ApyValueSum(assets)), Finite(TotalValue(assets))) else Finite(0.0)
  }

  /** `totalValue * (weightedApy / 100) / 12`. */
  function MonthlyEarnings(total: real, apy: Num): (r: Num)
    ensures r.Finite? <==> apy.Finite?
    ensures r.Finite? ==> r.v * 1200.0 == total * apy.v
  {
    Div(Mul(Finite(total), Div(apy, Finite(100.0))), Finite(12.0))
  }

  /** Whenever the weighted APY is a number, a month's earnings are the APY-weighted
      values summed and divided by 1200: the division by the total cancels out. */
  lemma MonthlyEarningsCancel(assets: seq<Asset>)
    requires TotalValue(assets) != 0.0
    ensures MonthlyEarnings(TotalValue(assets), WeightedApy(assets)) == Finite(ApyValueSum(assets) / 1200.0)
  {
  }

  /** The guard's gap: a wallet whose only holding is worth nothing shows NaN
      as its APY and its monthly earnings. */
  lemma ZeroValueHoldingGivesNaN(walletId: string)
    ensures WeightedApy([Asset("USDY", 0.0, 0.0, 5.25, "Ethereum", walletId)]) == NonFinite
    ensures MonthlyEarnings(0.0, WeightedApy([Asset("USDY", 0.0, 0.0, 5.25, "Ethereum", walletId)])) == NonFinite
  {
    var s := [Asset("USDY", 0.0, 0.0, 5.25, "Ethereum", walletId)];
    assert s[..0] == [];
    assert TotalValue(s) == TotalValue(s[..0]) + 0.0 == 0.0;
  }

  /** (100 × 10 + 300 × 2) / 400 = 4. */
  lemma WeightedApyExample()
    ensures WeightedApy([Asset("A", 0.0, 100.0, 10.0, "", ""), Asset("B", 0.0, 300.0, 2.0, "", "")]) == Finite(4.0)
  {
    var s := [Asset("A", 0.0, 100.0, 10.0, "", ""), Asset("B", 0.0, 300.0, 2.0, "", "")];
    assert s[..1][..0] == [] && s[..1] == [s[0]];
    assert TotalValue(s) == 400.0;
    assert ApyValueSum(s) == 1600.0;
  }

  /** With non-negative values, the APY-weighted sum lies between the lowest and
      the highest APY times the total. */
  lemma {:induction false} ApyValueSumBounds(assets: seq<Asset>, lo: real, hi: real)
    requires forall i :: 0 <= i < |assets| ==> assets[i].value >= 0.0 && lo <= assets[i].apy <= hi
    ensures lo * TotalValue(assets) <= ApyValueSum(assets) <= hi * TotalValue(assets)
  {
    if assets != [] {
      var init := assets[..|assets| - 1];
      var last := assets[|assets| - 1];
      assert forall i :: 0 <= i < |init| ==> init[i] == assets[i];
      ApyValueSumBounds(init, lo, hi);
      WeightedStep(lo, hi, TotalValue(init), ApyValueSum(init), last.apy, last.value,
                   TotalValue(assets), ApyValueSum(assets));
    }
  }

  /** One more holding keeps the weighted sum between the bounds. */
  lemma WeightedStep(lo: real, hi: real, total: real, sum: real, apy: real, value: real,
                     total': real, sum': real)
    requires lo * total <= sum <= hi * total
    requires value >= 0.0 && lo <= apy <= hi
    requires total' == total + value && sum' == sum + apy * value
    ensures lo * total' <= sum' <= hi * total'
  {
    assert (apy - lo) * value >= 0.0;
    assert (hi - apy) * value >= 0.0;
  }

  /** A weighted average is an average: with non-negative values and a positive
      total, the weighted APY lies between the lowest and highest APY. */
  lemma WeightedApyBetween(assets: seq<Asset>, lo: real, hi: real)
    requires forall i :: 0 <= i < |assets| ==> assets[i].value >= 0.0 && lo <= assets[i].apy <= hi
    requires TotalValue(assets) > 0.0
    ensures WeightedApy(assets).Finite?
    ensures lo <= WeightedApy(assets).v <= hi
  {
    ApyValueSumBounds(assets, lo, hi);
    QuotientBetween(WeightedApy(assets).v, TotalValue(assets), ApyValueSum(assets), lo, hi);
  }

  /** If `w * t == s` for a positive `t`, bounds on `s` in units of `t` bound `w`. */
  lemma QuotientBetween(w: real, t: real, s: real, lo: real, hi: real)
    requires t > 0.0 && w * t == s && lo * t <= s <= hi * t
    ensures lo <= w <= hi
  {
    assert (w - lo) * t >= 0.0;
    assert (hi - w) * t >= 0.0;
  }

  /** The (token, value) pairs the distribution reduce reads. */
  function TokenValues(assets: seq<Asset>): (r: seq<(string, real)>)
    ensures |r| == |assets|
    ensures forall i :: 0 <= i < |assets| ==> r[i] == (assets[i].token, assets[i].value)
  {
    seq(|assets|, i requires 0 <= i < |assets| => (assets[i].token, assets[i].value))
  }

  /** `assetDistribution`: per-token value, tokens in order of first appearance. */
  function Distribution(assets: seq<Asset>): seq<Entry<string>> {
    Grouped(TokenValues(assets))
  }

  lemma {:induction false} TokenValuesTotal(assets: seq<Asset>)
    ensures PairsTotal(TokenValues(assets)) == TotalValue(assets)
  {
    if assets != [] {
      assert TokenValues(assets)[..|assets| - 1] == TokenValues(assets[..|assets| - 1]);
      TokenValuesTotal(assets[..|assets| - 1]);
    }
  }

  /** The tokens of the holdings, in order. */
  function Tokens(assets: seq<Asset>): (r: seq<string>)
    ensures |r| == |assets|
    ensures forall i :: 0 <= i < |assets| ==> r[i] == assets[i].token
  {
    seq(|assets|, i requires 0 <= i < |assets| => assets[i].token)
  }

  /** The distribution's keys are exactly the distinct tokens on show, each
      once, in order of first appearance, and its values add up to the total
      value. */
  lemma DistributionSpec(assets: seq<Asset>)
    ensures KeysOf(Distribution(assets)) == Dedup(Tokens(assets))
    ensures Distinct(KeysOf(Distribution(assets)))
    ensures EntriesTotal(Distribution(assets)) == TotalValue(assets)
  {
    var pairs := TokenValues(assets);
    GroupedKeys(pairs);
    assert PairKeys(pairs) == Tokens(assets);
    GroupedTotal(pairs);
    TokenValuesTotal(assets);
  }

  /** A token's share of the pie, in percent: `(value / total) * 100`. */
  function Percentage(value: real, total: real): Num {
    Mul(Div(Finite(value), Finite(total)), Finite(100.0))
  }

  /** One circle of the pie: its share and where it starts. */
  datatype Slice = Slice(token: string, percentage: Num, offset: Num)

  /** The offset before slice `i`: the shares of the earlier slices added up from 0. */
  function OffsetBefore(dist: seq<Entry<string>>, total: real, i: nat): Num
    requires i <= |dist|
  {
    if i == 0 then Finite(0.0) else Add(OffsetBefore(dist, total, i - 1), Percentage(dist[i - 1].total, total))
  }

  /** The shares as plain numbers, for a non-zero total. */
  function Shares(dist: seq<Entry<string>>, total: real): (r: seq<real>)
    requires total != 0.0
    ensures |r| == |dist|
    ensures forall i :: 0 <= i < |dist| ==> r[i] == dist[i].total / total * 100.0
  {
    seq(|dist|, i requires 0 <= i < |dist| => dist[i].total / total * 100.0)
  }

  /** The pie loop: walks the distribution, emitting each slice at the running
      offset and then advancing the offset by the slice's share. */
  method PieSlices(dist: seq<Entry<string>>) returns (slices: seq<Slice>)
    ensures |slices| == |dist|
    ensures forall i :: 0 <= i < |dist| ==> slices[i].token == dist[i].key
    ensures forall i :: 0 <= i < |dist| ==> slices[i].percentage == Percentage(dist[i].total, EntriesTotal(dist))
    ensures forall i :: 0 <= i < |dist| ==> slices[i].offset == OffsetBefore(dist, EntriesTotal(dist), i)
  {
    var total := EntriesTotal(dist);
    var offset := Finite(0.0);
    slices := [];
    var i := 0;
    while i < |dist|
      invariant 0 <= i <= |dist|
      invariant |slices| == i
      invariant offset == OffsetBefore(dist, total, i)
      invariant forall j :: 0 <= j < i ==> slices[j] == Slice(dist[j].key, Percentage(dist[j].total, total), OffsetBefore(dist, total, j))
    {
      var percentage := Percentage(dist[i].total, total);
      assert OffsetBefore(dist, total, i + 1) == Add(offset, percentage);
      slices := slices + [Slice(dist[i].key, percentage, offset)];
      offset := Add(offset, percentage);
      i := i + 1;
    }
  }

  /** For a non-zero total, each slice starts where the earlier shares end. */
  lemma {:induction false} OffsetIsPrefixSum(dist: seq<Entry<string>>, total: real, i: nat)
    requires total != 0.0 && i <= |dist|
    ensures OffsetBefore(dist, total, i) == Finite(SumReals(Shares(dist, total)[..i]))
  {
    if i > 0 {
      OffsetIsPrefixSum(dist, total, i - 1);
      var s := Shares(dist, total);
      assert s[..i] == s[..i - 1] + [s[i - 1]];
      SumRealsAppend(s[..i - 1], [s[i - 1]]);
      assert SumReals([s[i - 1]]) == s[i - 1];
    }
  }

  lemma ShareSplit(a: real, b: real, total: real)
    requires total != 0.0
    ensures a / total * 100.0 + b / total * 100.0 == (a + b) / total * 100.0
  {
  }

  lemma {:induction false} SharesSum(dist: seq<Entry<string>>, total: real)
    requires total != 0.0
    ensures SumReals(Shares(dist, total)) == EntriesTotal(dist) / total * 100.0
  {
    if dist != [] {
      var s := Shares(dist, total);
      SharesSum(dist[1..], total);
      assert s[1..] == Shares(dist[1..], total);
      SumRealsCons(s);
      ShareSplit(dist[0].total, EntriesTotal(dist[1..]), total);
    }
  }

  /** The slices cover the whole circle: with a non-zero total the shares add up to 100. */
  lemma SharesSumTo100(dist: seq<Entry<string>>)
    requires EntriesTotal(dist) != 0.0
    ensures SumReals(Shares(dist, EntriesTotal(dist))) == 100.0
  {
    var t := EntriesTotal(dist);
    SharesSum(dist, t);
    WholeShare(t);
  }

  lemma WholeShare(t: real)
    requires t != 0.0
    ensures t / t * 100.0 == 100.0
  {
  }

  /** The screen the dashboard renders. */
  datatype View = Empty | AddWallet | Overview

  class Dashboard {
    var wallets: seq<Wallet>
    var assets: seq<Asset>
    var selectedWalletId: Option<string>
    var showAddWallet: bool
    var isLoading: bool

    constructor ()
      ensures wallets == [] && assets == [] && selectedWalletId == None
      ensures !showAddWallet && !isLoading
    {
      wallets := [];
      assets := [];
      selectedWalletId := None;
      showAddWallet := false;
      isLoading := false;
    }

    /** The empty state until a wallet exists or the add form is opened. */
    function CurrentView(): (v: View)
      reads this`wallets, this`showAddWallet
      ensures v == Empty <==> wallets == [] && !showAddWallet
      ensures v == AddWallet <==> showAddWallet
    {
      if wallets == [] && !showAddWallet then Empty
      else if showAddWallet then AddWallet
      else Overview
    }

    method SetShowAddWallet(show: bool)
      modifies this`showAddWallet
      ensures showAddWallet == show
    {
      showAddWallet := show;
    }

    method SelectWallet(id: Option<string>)
      modifies this`selectedWalletId
      ensures selectedWalletId == id
    {
      selectedWalletId := id;
    }

    /** A connection request arrives: the spinner starts. */
    method BeginConnect()
      modifies this`isLoading
      ensures isLoading
    {
      isLoading := true;
    }

    /** After the delay: the wallet is appended under the fresh id `id` (a
        millisecond timestamp, so not necessarily unique) with its four mock
        holdings, the add form closes and the spinner stops. */
    method CompleteConnect(request: ConnectRequest, id: string)
      modifies this`wallets, this`assets, this`showAddWallet, this`isLoading
      ensures wallets == old(wallets) + [Wallet(id, request.address, request.kind, request.name)]
      ensures assets == old(assets) + MockAssets(id)
      ensures !showAddWallet && !isLoading
    {
      wallets := wallets + [Wallet(id, request.address, request.kind, request.name)];
      assets := assets + MockAssets(id);
      showAddWallet := false;
      isLoading := false;
    }

    /** Drops the wallet and its holdings; the selection is cleared only when it
        was the removed wallet. */
    method RemoveWallet(walletId: string)
      modifies this`wallets, this`assets, this`selectedWalletId
      ensures wallets == Filter(old(wallets), (w: Wallet) => w.id != walletId)
      ensures assets == Filter(old(assets), (a: Asset) => a.walletId != walletId)
      ensures selectedWalletId == if old(selectedWalletId) == Some(walletId) then None else old(selectedWalletId)
      ensures forall a :: a in assets ==> a.walletId != walletId
    {
      wallets := Filter(wallets, (w: Wallet) => w.id != walletId);
      assets := Filter(assets, (a: Asset) => a.walletId != walletId);
      if selectedWalletId == Some(walletId) {
        selectedWalletId := None;
      }
    }
  }
}

/** The single-wallet dashboard: the user types an address, the dashboard
    records it in the store as the connected wallet and shows a fixed set of
    four holdings, their total, their value-weighted APY, monthly earnings and
    a pie chart drawn as dashed circles of circumference 251. */
module AssetDashboard {
  import opened Seqs
  import opened JsNumber
  import opened Grouping
  import opened AppStore
  import V2 = DashboardV2

  datatype WalletAsset = WalletAsset(token: string, balance: real, value: real, apy: real, chain: string)

  /** The holdings every connected address is shown. */
  function MockWalletAssets(): (r: seq<WalletAsset>)
    ensures |r| == 4
    ensures forall i :: 0 <= i < |r| ==> r[i].value > 0.0
    ensures [r[0].token, r[1].token, r[2].token, r[3].token] == ["USDY", "sDAI", "USDC", "USDe"]
  {
    [ WalletAsset("USDY", 150000.0, 156345.0, 5.25, "Ethereum"),
      WalletAsset("sDAI", 80000.0, 85208.0, 6.12, "Ethereum"),
      WalletAsset("USDC", 250000.0, 250000.0, 4.52, "Polygon"),
      WalletAsset("USDe", 45000.0, 45000.0, 12.45, "Ethereum") ]
  }

  /** The same holdings in the multi-wallet dashboard's shape, owned by no wallet. */
  function AsV2(assets: seq<WalletAsset>): (r: seq<V2.Asset>)
    ensures |r| == |assets|
    ensures forall i :: 0 <= i < |assets| ==>
      r[i] == V2.Asset(assets[i].token, assets[i].balance, assets[i].value, assets[i].apy, assets[i].chain, "")
  {
    seq(|assets|, i requires 0 <= i < |assets| =>
      V2.Asset(assets[i].token, assets[i].balance, assets[i].value, assets[i].apy, assets[i].chain, ""))
  }

  lemma AsV2Prefix(assets: seq<WalletAsset>)
    requires assets != []
    ensures AsV2(assets)[..|assets| - 1] == AsV2(assets[..|assets| - 1])
  {
  }

  /** `assets?.reduce(...) || 0`: the values summed, and 0 before a wallet is connected. */
  function TotalValue(assets: Option<seq<WalletAsset>>): (r: real)
    ensures assets.None? ==> r == 0.0
  {
    if assets.None? then 0.0 else V2.TotalValue(AsV2(assets.value))
  }

  /** The weighted APY accumulated term by term: each holding contributes
      `apy * value / total`, so a zero total makes every term NaN or infinite. */
  function PerTermSum(assets: seq<WalletAsset>, total: real): Num {
    if assets == [] then Finite(0.0)
    else
      var last := assets[|assets| - 1];
      Add(PerTermSum(assets[..|assets| - 1], total), Div(Finite(last.apy * last.value), Finite(total)))
  }

  /** `weightedApy`: 0 before a wallet is connected, and (an empty array being
      truthy) 0 for no holdings; there is no guard for a zero total. */
  function WeightedApy(assets: Option<seq<WalletAsset>>): (r: Num)
    ensures assets.None? || assets == Some([]) ==> r == Finite(0.0)
  {
    if assets.None? then Finite(0.0) else PerTermSum(assets.value, TotalValue(assets))
  }

  lemma DivSplit(a: real, b: real, t: real)
    requires t != 0.0
    ensures a / t + b / t == (a + b) / t
  {
  }

  /** For a non-zero total, summing the terms is dividing the sum. */
  lemma {:induction false} PerTermSumQuotient(assets: seq<WalletAsset>, total: real)
    requires total != 0.0
    ensures PerTermSum(assets, total) == Finite(V2.ApyValueSum(AsV2(assets)) / total)
  {
    if assets != [] {
      var last := assets[|assets| - 1];
      PerTermSumQuotient(assets[..|assets| - 1], total);
      AsV2Prefix(assets);
      DivSplit(V2.ApyValueSum(AsV2(assets[..|assets| - 1])), last.apy * last.value, total);
    }
  }

  /** For a zero total, any holding makes the sum NaN or infinite. */
  lemma {:induction false} PerTermSumZeroTotal(assets: seq<WalletAsset>)
    requires assets != []
    ensures PerTermSum(assets, 0.0) == NonFinite
  {
    if |assets| > 1 {
      PerTermSumZeroTotal(assets[..|assets| - 1]);
    }
  }

  /** Both dashboards compute the same weighted APY for the same holdings, the
      zero-total NaN included. */
  lemma WeightedApyAgrees(assets: seq<WalletAsset>)
    ensures WeightedApy(Some(assets)) == V2.WeightedApy(AsV2(assets))
  {
    var total := TotalValue(Some(assets));
    if total != 0.0 {
      PerTermSumQuotient(assets, total);
    } else if assets != [] {
      PerTermSumZeroTotal(assets);
    }
  }

  /** `(totalValue * weightedApy) / 100 / 12`. */
  function MonthlyEarnings(total: real, apy: Num): (r: Num)
    ensures r.Finite? <==> apy.Finite?
    ensures r.Finite? ==> r.v * 1200.0 == total * apy.v
  {
    Div(Div(Mul(Finite(total), apy), Finite(100.0)), Finite(12.0))
  }

  /** In exact arithmetic both dashboards' monthly-earnings formulas agree. */
  lemma MonthlyEarningsAgrees(total: real, apy: Num)
    ensures MonthlyEarnings(total, apy) == V2.MonthlyEarnings(total, apy)
  {
  }

  /** The holdings as (token, value) entries, the shape the pie arithmetic reads. */
  function Entries(assets: seq<WalletAsset>): (r: seq<Entry<string>>)
    ensures |r| == |assets|
    ensures forall i :: 0 <= i < |assets| ==> r[i] == Entry(assets[i].token, assets[i].value)
  {
    seq(|assets|, i requires 0 <= i < |assets| => Entry(assets[i].token, assets[i].value))
  }

  lemma {:induction false} EntriesTotalIsTotal(assets: seq<WalletAsset>)
    ensures EntriesTotal(Entries(assets)) == TotalValue(Some(assets))
  {
    if assets != [] {
      var init := assets[..|assets| - 1];
      EntriesTotalIsTotal(init);
      assert Entries(assets) == Entries(init) + [Entry(assets[|assets| - 1].token, assets[|assets| - 1].value)];
      EntriesTotalSnoc(Entries(init), Entry(assets[|assets| - 1].token, assets[|assets| - 1].value));
      AsV2Prefix(assets);
    }
  }

  /** One dashed circle: the dash and gap lengths and the dash offset. */
  datatype Arc = Arc(token: string, dash: Num, gap: Num, offset: Num)

  /** Where arc `i` starts: minus the earlier percentages, scaled by 2.51. */
  function ArcOffset(assets: seq<WalletAsset>, total: real, i: nat): Num
    requires i <= |assets|
  {
    Mul(Neg(V2.OffsetBefore(Entries(assets), total, i)), Finite(2.51))
  }

  /** Arc `i` of the pie: its dash is the holding's percentage times 2.51, its
      gap the rest of 251, and it starts at minus the earlier percentages
      times 2.51. */
  function ArcAt(assets: seq<WalletAsset>, total: real, i: nat): Arc
    requires i < |assets|
  {
    var dash := Mul(V2.Percentage(assets[i].value, total), Finite(2.51));
    Arc(assets[i].token, dash, Sub(Finite(251.0), dash), ArcOffset(assets, total, i))
  }

  /** The pie reduce: one arc per holding, carrying the running percentage
      from arc to arc instead of recomputing it. */
  method PieArcs(assets: seq<WalletAsset>, total: real) returns (arcs: seq<Arc>)
    ensures |arcs| == |assets|
    ensures forall i :: 0 <= i < |assets| ==> arcs[i] == ArcAt(assets, total, i)
  {
    var prevPercentage := Finite(0.0);
    arcs := [];
    var i := 0;
    while i < |assets|
      invariant 0 <= i <= |assets|
      invariant |arcs| == i
      invariant prevPercentage == V2.OffsetBefore(Entries(assets), total, i)
      invariant forall j :: 0 <= j < i ==> arcs[j] == ArcAt(assets, total, j)
    {
      var percentage := V2.Percentage(assets[i].value, total);
      var dash := Mul(percentage, Finite(2.51));
      arcs := arcs + [Arc(assets[i].token, dash, Sub(Finite(251.0), dash), Mul(Neg(prevPercentage), Finite(2.51)))];
      prevPercentage := Add(prevPercentage, percentage);
      i := i + 1;
    }
  }

  /** With a non-zero total, each arc starts 2.51 times the earlier shares
      back, and past the last arc the offsets have gone once round the
      251-long circle. */
  lemma ArcOffsetSpec(assets: seq<WalletAsset>, i: nat)
    requires TotalValue(Some(assets)) != 0.0 && i <= |assets|
    ensures ArcOffset(assets, TotalValue(Some(assets)), i) ==
      Finite(-SumReals(V2.Shares(Entries(assets), TotalValue(Some(assets)))[..i]) * 2.51)
    ensures ArcOffset(assets, TotalValue(Some(assets)), |assets|) == Finite(-251.0)
  {
    var total := TotalValue(Some(assets));
    var e := Entries(assets);
    V2.OffsetIsPrefixSum(e, total, i);
    V2.OffsetIsPrefixSum(e, total, |e|);
    EntriesTotalIsTotal(assets);
    V2.SharesSumTo100(e);
    assert V2.Shares(e, total)[..|e|] == V2.Shares(e, total);
  }

  class Dashboard {
    /** The application store, which holds the connected address. */
    const store: Store
    var walletInput: string
    var isLoading: bool
    var assets: Option<seq<WalletAsset>>

    constructor (store: Store)
      ensures this.store == store
      ensures walletInput == "" && !isLoading && assets == None
    {
      this.store := store;
      walletInput := "";
      isLoading := false;
      assets := None;
    }

    method SetWalletInput(s: string)
      modifies this`walletInput
      ensures walletInput == s
    {
      walletInput := s;
    }

    /** With no address typed nothing happens; otherwise, after the simulated
        lookup, the address becomes the connected wallet and the fixed
        holdings are shown. */
    method HandleConnect()
      modifies store`connectedWallet, this`assets, this`isLoading
      ensures walletInput == "" ==>
        store.connectedWallet == old(store.connectedWallet) && assets == old(assets) && isLoading == old(isLoading)
      ensures walletInput != "" ==>
        store.connectedWallet == Some(walletInput) && assets == Some(MockWalletAssets()) && !isLoading
    {
      if walletInput == "" {
        return;
      }
      isLoading := true;
      store.SetConnectedWallet(Some(walletInput));
      assets := Some(MockWalletAssets());
      isLoading := false;
    }

    /** The reconnect button forgets both the address and the holdings. */
    method Reconnect()
      modifies store`connectedWallet, this`assets
      ensures store.connectedWallet == None && assets == None
    {
      store.SetConnectedWallet(None);
      assets := None;
    }
  }
}

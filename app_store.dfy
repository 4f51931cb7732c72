/** The persisted application store: language, onboarding answers, favorite
    products, navigation, chat and sidebar flags, and the dashboard's wallets
    with their holdings. Every action replaces some fields with values built
    by spreading or filtering the old ones. */
module AppStore {
  import opened Seqs
  import opened Types

  /** The eight holdings every newly added wallet receives, all owned by `walletId`. */
  function MockAssets(walletId: string): (r: seq<DashboardAsset>)
    ensures |r| == 8
    ensures forall i :: 0 <= i < |r| ==> r[i].walletId == walletId
    ensures forall i :: 0 <= i < |r| ==> r[i].purchaseTime.None? && r[i].purchasePrice.None?
  {
    [ DashboardAsset("USDY", 125000.0, 130421.25, 1.0434, 5.25, 5421.25, "Ethereum", walletId, TokenisedMmf, None, None),
      DashboardAsset("BUIDL", 500000.0, 500000.0, 1.0, 4.89, 12450.00, "Ethereum", walletId, TokenisedMmf, None, None),
      DashboardAsset("PAXG", 15.5, 40235.50, 2596.16, 0.0, 2235.50, "Ethereum", walletId, TokenisedGold, None, None),
      DashboardAsset("XAUT", 8.2, 21288.40, 2596.15, 0.0, 1288.40, "Ethereum", walletId, TokenisedGold, None, None),
      DashboardAsset("ETH", 25.8, 96750.00, 3750.00, 3.2, 8750.00, "Ethereum", walletId, Crypto, None, None),
      DashboardAsset("BTC", 1.25, 131250.00, 105000.00, 0.0, 21250.00, "Bitcoin", walletId, Crypto, None, None),
      DashboardAsset("USDC", 85000.0, 85000.0, 1.0, 0.0, 0.0, "Ethereum", walletId, Stablecoin, None, None),
      DashboardAsset("USDT", 50000.0, 50000.0, 1.0, 0.0, 0.0, "BSC", walletId, Stablecoin, None, None) ]
  }

  /** The ids of a wallet list. */
  function WalletIds(wallets: seq<ConnectedWallet>): (ids: set<string>)
    ensures forall w :: w in wallets ==> w.id in ids
    ensures forall id :: id in ids ==> exists w :: w in wallets && w.id == id
  {
    set w | w in wallets :: w.id
  }

  /** Referential integrity: every holding names a wallet that is in the list. */
  predicate AssetsOwned(wallets: seq<ConnectedWallet>, assets: seq<DashboardAsset>) {
    forall a :: a in assets ==> a.walletId in WalletIds(wallets)
  }

  /** `dashboardWallets.filter(w => w.id !== walletId)`. */
  function WalletsWithout(wallets: seq<ConnectedWallet>, walletId: string): (r: seq<ConnectedWallet>)
  {
    Filter(wallets, (w: ConnectedWallet) => w.id != walletId)
  }

  /** `dashboardAssets.filter(a => a.walletId !== walletId)`. */
  function AssetsWithout(assets: seq<DashboardAsset>, walletId: string): (r: seq<DashboardAsset>)
  {
    Filter(assets, (a: DashboardAsset) => a.walletId != walletId)
  }

  /** Removing a wallet keeps exactly the wallets with another id and the holdings
      owned by another wallet. */
  lemma RemoveWalletSpec(wallets: seq<ConnectedWallet>, assets: seq<DashboardAsset>, walletId: string)
    ensures forall w :: w in WalletsWithout(wallets, walletId) <==> w in wallets && w.id != walletId
    ensures forall a :: a in AssetsWithout(assets, walletId) <==> a in assets && a.walletId != walletId
    ensures walletId !in WalletIds(WalletsWithout(wallets, walletId))
  {
  }

  /** Removing the same wallet twice is removing it once. */
  lemma RemoveWalletIdempotent(wallets: seq<ConnectedWallet>, assets: seq<DashboardAsset>, walletId: string)
    ensures WalletsWithout(WalletsWithout(wallets, walletId), walletId) == WalletsWithout(wallets, walletId)
    ensures AssetsWithout(AssetsWithout(assets, walletId), walletId) == AssetsWithout(assets, walletId)
  {
    FilterIdempotent(wallets, (w: ConnectedWallet) => w.id != walletId);
    FilterIdempotent(assets, (a: DashboardAsset) => a.walletId != walletId);
  }

  /** Adding a wallet with its mock holdings keeps every holding owned. */
  lemma AddWalletKeepsOwnership(wallets: seq<ConnectedWallet>, assets: seq<DashboardAsset>,
                                draft: WalletDraft, id: string)
    requires AssetsOwned(wallets, assets)
    ensures AssetsOwned(wallets + [draft.WithId(id)], assets + MockAssets(id))
  {
    var ws := wallets + [draft.WithId(id)];
    assert draft.WithId(id) in ws;
    forall a | a in assets + MockAssets(id) ensures a.walletId in WalletIds(ws) {
      if a in assets {
        var w :| w in wallets && w.id == a.walletId;
        assert w in ws;
      }
    }
  }

  /** Removing a wallet together with its holdings keeps every holding owned. */
  lemma RemoveWalletKeepsOwnership(wallets: seq<ConnectedWallet>, assets: seq<DashboardAsset>, walletId: string)
    requires AssetsOwned(wallets, assets)
    ensures AssetsOwned(WalletsWithout(wallets, walletId), AssetsWithout(assets, walletId))
  {
    var ws := WalletsWithout(wallets, walletId);
    forall a | a in AssetsWithout(assets, walletId) ensures a.walletId in WalletIds(ws) {
      var w :| w in wallets && w.id == a.walletId;
      assert w in ws;
    }
  }

  /** Removing only one of the wallets that hold assets would break integrity:
      the holdings of a wallet must go with it. */
  lemma RemovingWalletAloneBreaksOwnership(w: ConnectedWallet, a: DashboardAsset)
    requires a.walletId == w.id
    ensures AssetsOwned([w], [a])
    ensures !AssetsOwned(WalletsWithout([w], w.id), [a])
  {
    assert WalletsWithout([w], w.id) == [];
  }

  datatype Page = Home | ProductPage | DashboardPage

  class Store {
    var language: Language
    var isOnboarded: bool
    var institutionInfo: Option<InstitutionInfo>
    var favorites: seq<string>
    var currentPage: Page
    var selectedProductId: Option<string>
    var connectedWallet: Option<string>
    var isChatOpen: bool
    var sidebarCollapsed: bool
    var dashboardWallets: seq<ConnectedWallet>
    var dashboardAssets: seq<DashboardAsset>

    /** The store's initial state before anything is restored from storage. */
    constructor ()
      ensures language == Zh && !isOnboarded && institutionInfo == None
      ensures favorites == [] && currentPage == Home && selectedProductId == None
      ensures connectedWallet == None && !isChatOpen && !sidebarCollapsed
      ensures dashboardWallets == [] && dashboardAssets == []
      ensures AssetsOwned(dashboardWallets, dashboardAssets)
    {
      language := Zh;
      isOnboarded := false;
      institutionInfo := None;
      favorites := [];
      currentPage := Home;
      selectedProductId := None;
      connectedWallet := None;
      isChatOpen := false;
      sidebarCollapsed := false;
      dashboardWallets := [];
      dashboardAssets := [];
    }

    method SetLanguage(lang: Language)
      modifies this`language
      ensures language == lang
    {
      language := lang;
    }

    /** Records the questionnaire and marks the institution as onboarded. */
    method SetOnboarded(info: InstitutionInfo)
      modifies this`isOnboarded, this`institutionInfo
      ensures isOnboarded && institutionInfo == Some(info)
    {
      isOnboarded := true;
      institutionInfo := Some(info);
    }

    /** `favorites.includes(productId)`. */
    function IsFavorite(productId: string): (r: bool)
      reads this`favorites
      ensures r <==> exists i :: 0 <= i < |favorites| && favorites[i] == productId
    {
      productId in favorites
    }

    /** Removes every occurrence of a present id, appends an absent one. */
    method ToggleFavorite(productId: string)
      modifies this`favorites
      ensures favorites == Toggle(old(favorites), productId)
      ensures IsFavorite(productId) == !old(IsFavorite(productId))
      ensures forall id :: id != productId ==> IsFavorite(id) == old(IsFavorite(id))
      ensures !old(IsFavorite(productId)) ==> favorites == old(favorites) + [productId]
    {
      if productId in favorites {
        favorites := Remove(favorites, productId);
      } else {
        favorites := favorites + [productId];
      }
    }

    method SetCurrentPage(page: Page)
      modifies this`currentPage
      ensures currentPage == page
    {
      currentPage := page;
    }

    method SetSelectedProductId(id: Option<string>)
      modifies this`selectedProductId
      ensures selectedProductId == id
    {
      selectedProductId := id;
    }

    method SetConnectedWallet(address: Option<string>)
      modifies this`connectedWallet
      ensures connectedWallet == address
    {
      connectedWallet := address;
    }

    method ToggleChat()
      modifies this`isChatOpen
      ensures isChatOpen == !old(isChatOpen)
    {
      isChatOpen := !isChatOpen;
    }

    method ToggleSidebar()
      modifies this`sidebarCollapsed
      ensures sidebarCollapsed == !old(sidebarCollapsed)
    {
      sidebarCollapsed := !sidebarCollapsed;
    }

    /** Appends the wallet under the fresh id `id` (a millisecond timestamp in
        the application, so not necessarily unique) and its eight mock holdings. */
    method AddDashboardWallet(draft: WalletDraft, id: string)
      modifies this`dashboardWallets, this`dashboardAssets
      ensures dashboardWallets == old(dashboardWallets) + [draft.WithId(id)]
      ensures dashboardAssets == old(dashboardAssets) + MockAssets(id)
      ensures old(AssetsOwned(dashboardWallets, dashboardAssets)) ==> AssetsOwned(dashboardWallets, dashboardAssets)
    {
      if AssetsOwned(dashboardWallets, dashboardAssets) {
        AddWalletKeepsOwnership(dashboardWallets, dashboardAssets, draft, id);
      }
      dashboardWallets := dashboardWallets + [draft.WithId(id)];
      dashboardAssets := dashboardAssets + MockAssets(id);
    }

    /** Removes the wallet and, cascading, every holding it owns. */
    method RemoveDashboardWallet(walletId: string)
      modifies this`dashboardWallets, this`dashboardAssets
      ensures dashboardWallets == WalletsWithout(old(dashboardWallets), walletId)
      ensures dashboardAssets == AssetsWithout(old(dashboardAssets), walletId)
      ensures old(AssetsOwned(dashboardWallets, dashboardAssets)) ==> AssetsOwned(dashboardWallets, dashboardAssets)
    {
      if AssetsOwned(dashboardWallets, dashboardAssets) {
        RemoveWalletKeepsOwnership(dashboardWallets, dashboardAssets, walletId);
      }
      dashboardWallets := WalletsWithout(dashboardWallets, walletId);
      dashboardAssets := AssetsWithout(dashboardAssets, walletId);
    }
  }

  /** Toggling the chat twice, or the sidebar twice, restores the flag. */
  method ToggleTwiceRestores(s: Store)
    modifies s`isChatOpen, s`sidebarCollapsed
    ensures s.isChatOpen == old(s.isChatOpen) && s.sidebarCollapsed == old(s.sidebarCollapsed)
  {
    s.ToggleChat();
    s.ToggleChat();
    s.ToggleSidebar();
    s.ToggleSidebar();
  }
}

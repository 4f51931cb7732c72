/** Record shapes shared by the store and the components (src/types/index.ts),
    with numbers as reals and optional members as Option. */
module Types {
  import opened Seqs

  datatype Language = Zh | En

  /** Keys of the institution questionnaire. */
  datatype InfoField =
    | CompanyName | ExpectedInvestment | ExpectedYield | InvestmentPeriod
    | HasOwnWallet | WalletPlatform

  /** A questionnaire answer: a text field or the wallet switch. */
  datatype InfoValue = Text(s: string) | Flag(b: bool)

  /** The onboarding form passes its partially filled object to the store by a
      type cast, so the stored record is a partial map from field to answer. */
  type InstitutionInfo = map<InfoField, InfoValue>

  datatype WalletKind = Decentralized | Exchange | Manual

  /** A wallet as the store keeps it. */
  datatype ConnectedWallet = ConnectedWallet(
    id: string, address: string, kind: WalletKind, name: string,
    chains: Option<seq<string>>, platform: Option<string>)

  /** The fields a caller supplies when adding a wallet; the store adds the id. */
  datatype WalletDraft = WalletDraft(
    address: string, kind: WalletKind, name: string,
    chains: Option<seq<string>>, platform: Option<string>)
  {
    function WithId(id: string): (w: ConnectedWallet)
      ensures w.id == id && w.address == address && w.kind == kind && w.name == name
      ensures w.chains == chains && w.platform == platform
    {
      ConnectedWallet(id, address, kind, name, chains, platform)
    }
  }

  datatype AssetCategory = Crypto | TokenisedMmf | TokenisedGold | Stablecoin

  /** One holding on the dashboard. */
  datatype DashboardAsset = DashboardAsset(
    token: string, balance: real, value: real, price: real, apy7d: real, profit: real,
    chain: string, walletId: string, category: AssetCategory,
    purchaseTime: Option<string>, purchasePrice: Option<real>)

  /** The catalog fields the list, table and assistant read. */
  datatype Product = Product(
    id: string, name: string, tokenName: string, platforms: seq<string>,
    apy7d: real, managementFee: real, subscriptionFee: real, redemptionFee: real,
    revenueShare: real, totalMarketCap: Option<string>)
}

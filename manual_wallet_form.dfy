/** The manual wallet form: a random default address, six text fields, and a
    submission that goes through only when every field is filled and the
    token is one the form offers. */
module ManualWalletForm {
  import opened Seqs
  import opened JsNumber
  import opened Types
  import opened Charts

  const HexChars: string := "0123456789abcdef"

  /** `Math.floor(Math.random() * chars.length)`. */
  function HexIndex(r: Draw): (k: nat)
    ensures k < |HexChars|
    ensures k as real <= r * 16.0 < k as real + 1.0
  {
    (r * 16.0).Floor
  }

  /** The address the initialiser builds from its forty draws. */
  function RandomAddress(draws: seq<Draw>): seq<char>
    requires |draws| == 40
  {
    "0x" + seq(40, i requires 0 <= i < 40 => HexChars[HexIndex(draws[i])])
  }

  /** The initialiser's loop: append one hex digit per draw to "0x". */
  method GenerateAddress(draws: seq<Draw>) returns (address: string)
    requires |draws| == 40
    ensures address == RandomAddress(draws)
  {
    address := "0x";
    var i := 0;
    while i < 40
      invariant 0 <= i <= 40
      invariant |address| == i + 2 && address[..2] == "0x"
      invariant forall k :: 0 <= k < i ==> address[k + 2] == HexChars[HexIndex(draws[k])]
    {
      address := address + [HexChars[HexIndex(draws[i])]];
      i := i + 1;
    }
  }

  /** The default address is "0x" and forty lower-case hex digits. */
  lemma RandomAddressShape(draws: seq<Draw>)
    requires |draws| == 40
    ensures |RandomAddress(draws)| == 42
    ensures RandomAddress(draws)[..2] == "0x"
    ensures forall i :: 2 <= i < 42 ==> RandomAddress(draws)[i] in HexChars
  {
  }

  /** The draw that picks the `k`-th hex digit. */
  function DrawFor(k: nat): (r: Draw)
    requires k < 16
    ensures HexIndex(r) == k
  {
    k as real / 16.0
  }

  /** Every "0x" address of forty lower-case hex digits can come out. */
  lemma RandomAddressCovers(hex: string)
    requires |hex| == 40 && forall i :: 0 <= i < 40 ==> hex[i] in HexChars
    ensures exists draws: seq<Draw> :: |draws| == 40 && RandomAddress(draws) == "0x" + hex
  {
    var ks := seq(40, i requires 0 <= i < 40 => IndexIn(HexChars, hex[i]));
    var draws := seq(40, i requires 0 <= i < 40 => DrawFor(ks[i]));
    assert RandomAddress(draws) == "0x" + hex;
  }

  /** The position of a character known to occur. */
  function IndexIn(s: string, c: char): (k: nat)
    requires c in s
    ensures k < |s| && s[k] == c
  {
    if s[0] == c then 0 else IndexIn(s[1..], c) + 1
  }

  datatype AssetOption = AssetOption(value: string, category: AssetCategory)

  /** `ASSET_OPTIONS`: the tokens offered and their categories. */
  const AssetOptions: seq<AssetOption> := [
    AssetOption("USDY", TokenisedMmf), AssetOption("BUIDL", TokenisedMmf),
    AssetOption("PAXG", TokenisedGold), AssetOption("XAUT", TokenisedGold),
    AssetOption("ETH", Crypto), AssetOption("BTC", Crypto),
    AssetOption("USDC", Stablecoin), AssetOption("USDT", Stablecoin)
  ]

  function OptionValues(options: seq<AssetOption>): (vs: seq<string>)
    ensures |vs| == |options|
    ensures forall i :: 0 <= i < |options| ==> vs[i] == options[i].value
  {
    seq(|options|, i requires 0 <= i < |options| => options[i].value)
  }

  /** `ASSET_OPTIONS.find(a => a.value === token)?.category`. */
  function CategoryOf(token: string): Option<AssetCategory> {
    match Find(AssetOptions, (a: AssetOption) => a.value == token)
    case Some(a) => Some(a.category)
    case None => None
  }

  /** The offered tokens are eight distinct names. */
  lemma AssetOptionsDistinct()
    ensures OptionValues(AssetOptions) == ["USDY", "BUIDL", "PAXG", "XAUT", "ETH", "BTC", "USDC", "USDT"]
    ensures Distinct(OptionValues(AssetOptions))
  {
    assert OptionValues(AssetOptions) == ["USDY", "BUIDL", "PAXG", "XAUT", "ETH", "BTC", "USDC", "USDT"];
  }

  /** Money-market funds, gold, crypto and stablecoins, two tokens each. */
  lemma AssetCategories()
    ensures CategoryOf("USDY") == Some(TokenisedMmf) && CategoryOf("BUIDL") == Some(TokenisedMmf)
    ensures CategoryOf("PAXG") == Some(TokenisedGold) && CategoryOf("XAUT") == Some(TokenisedGold)
    ensures CategoryOf("ETH") == Some(Crypto) && CategoryOf("BTC") == Some(Crypto)
    ensures CategoryOf("USDC") == Some(Stablecoin) && CategoryOf("USDT") == Some(Stablecoin)
  {
    CategoryOfListed(0);
    CategoryOfListed(1);
    CategoryOfListed(2);
    CategoryOfListed(3);
    CategoryOfListed(4);
    CategoryOfListed(5);
    CategoryOfListed(6);
    CategoryOfListed(7);
  }

  /** With distinct tokens, a listed token finds its own row. */
  lemma CategoryOfListed(i: nat)
    requires i < |AssetOptions|
    ensures CategoryOf(AssetOptions[i].value) == Some(AssetOptions[i].category)
  {
    AssetOptionsDistinct();
    var token := AssetOptions[i].value;
    var found := Find(AssetOptions, (a: AssetOption) => a.value == token);
    assert found.Some?;
    var k :| 0 <= k < |AssetOptions| && AssetOptions[k] == found.value && AssetOptions[k].value == token;
    assert OptionValues(AssetOptions)[k] == OptionValues(AssetOptions)[i];
  }

  /** A token has a category exactly when the form offers it. */
  lemma CategoryOfSpec(token: string)
    ensures CategoryOf(token).Some? <==> token in OptionValues(AssetOptions)
  {
    if token in OptionValues(AssetOptions) {
      var i :| 0 <= i < |AssetOptions| && AssetOptions[i].value == token;
    }
  }

  /** `ManualAssetInput`: what the form hands to the dashboard. */
  datatype ManualAssetInput = ManualAssetInput(
    token: string, purchaseTime: string, purchasePrice: Num, quantity: Num, category: AssetCategory)

  datatype Submission = Submission(name: string, address: string, asset: ManualAssetInput)

  class Form {
    var walletName: string
    var walletAddress: string
    var selectedAsset: string
    var purchaseTime: string
    var purchasePrice: string
    var quantity: string

    /** An empty form whose address field holds a fresh random address. */
    constructor (draws: seq<Draw>)
      requires |draws| == 40
      ensures walletAddress == RandomAddress(draws)
      ensures walletName == "" && selectedAsset == "" && purchaseTime == ""
      ensures purchasePrice == "" && quantity == ""
      ensures !IsFormValid()
    {
      walletName := "";
      selectedAsset := "";
      purchaseTime := "";
      purchasePrice := "";
      quantity := "";
      new;
      walletAddress := GenerateAddress(draws);
    }

    method SetSelectedAsset(token: string)
      modifies this`selectedAsset
      ensures selectedAsset == token
    {
      selectedAsset := token;
    }

    method SetWalletAddress(address: string)
      modifies this`walletAddress
      ensures walletAddress == address
    {
      walletAddress := address;
    }

    method SetWalletName(name: string)
      modifies this`walletName
      ensures walletName == name
    {
      walletName := name;
    }

    method SetPurchaseTime(time: string)
      modifies this`purchaseTime
      ensures purchaseTime == time
    {
      purchaseTime := time;
    }

    method SetPurchasePrice(price: string)
      modifies this`purchasePrice
      ensures purchasePrice == price
    {
      purchasePrice := price;
    }

    method SetQuantity(amount: string)
      modifies this`quantity
      ensures quantity == amount
    {
      quantity := amount;
    }

    /** `isFormValid`: all six fields filled in. */
    predicate IsFormValid()
      reads this`walletName, this`walletAddress, this`selectedAsset, this`purchaseTime,
            this`purchasePrice, this`quantity
    {
      walletName != "" && walletAddress != "" && selectedAsset != "" && purchaseTime != ""
      && purchasePrice != "" && quantity != ""
    }

    /** `handleSubmit`: the submission passed to `onSubmit`, or nothing. The
        number parser is a parameter. */
    function Submit(parseFloat: string -> Num): (r: Option<Submission>)
      reads this`walletName, this`walletAddress, this`selectedAsset, this`purchaseTime,
            this`purchasePrice, this`quantity
      ensures r.Some? <==> IsFormValid() && selectedAsset in OptionValues(AssetOptions)
      ensures r.Some? ==>
        && r.value.name == walletName && r.value.address == walletAddress
        && r.value.asset.token == selectedAsset && r.value.asset.purchaseTime == purchaseTime
        && Some(r.value.asset.category) == CategoryOf(selectedAsset)
        && r.value.asset.purchasePrice == parseFloat(purchasePrice)
        && r.value.asset.quantity == parseFloat(quantity)
    {
      CategoryOfSpec(selectedAsset);
      if !IsFormValid() then None
      else match CategoryOf(selectedAsset)
        case None => None
        case Some(category) =>
          Some(Submission(walletName, walletAddress,
            ManualAssetInput(selectedAsset, purchaseTime, parseFloat(purchasePrice), parseFloat(quantity), category)))
    }

    /** The summary line: price times quantity, NaN unless both parse. */
    function SummaryTotal(parseFloat: string -> Num): (r: Num)
      reads this`purchasePrice, this`quantity
      ensures r.Finite? <==> parseFloat(purchasePrice).Finite? && parseFloat(quantity).Finite?
      ensures r.Finite? ==> r.v == parseFloat(purchasePrice).v * parseFloat(quantity).v
    {
      Mul(parseFloat(purchasePrice), parseFloat(quantity))
    }
  }
}

/** The add-wallet panel: the user picks a wallet type, types an address and
    an optional name, and the panel hands a connection request to its parent.
    The exchange path shows a QR code for a fixed delay first; that delay is
    modelled as two steps. */
module WalletConnector {
  import opened Seqs
  import opened JsText

  datatype WalletType = MetaMask | Bnb

  /** What the panel passes to `onConnect`. */
  datatype ConnectRequest = ConnectRequest(address: string, kind: WalletType, name: string)

  /** The placeholder address reported for an exchange-custodied wallet. */
  const BnbAddress: string := "0xBNB...Exchange"

  /** The name of a MetaMask wallet: the typed name, or "MetaMask " and the
      abbreviated address when no name was typed. */
  function MetaMaskName(address: string, walletName: string): (r: string)
    ensures walletName != "" ==> r == walletName
    ensures walletName == "" ==> r == "MetaMask " + ShortAddress(address)
    ensures walletName == "" && |address| >= 6 ==>
      |r| == 22 && r[..9] == "MetaMask " && r[9..15] == address[..6]
      && r[15..18] == "..." && r[18..] == address[|address| - 4..]
  {
    if walletName != "" then walletName else "MetaMask " + ShortAddress(address)
  }

  /** The name of an exchange wallet: the typed name or a fixed default. */
  function BnbName(walletName: string): (r: string)
    ensures r != ""
    ensures walletName != "" ==> r == walletName
  {
    if walletName != "" then walletName else "BNB Exchange Wallet"
  }

  class Connector {
    var selectedType: Option<WalletType>
    var walletAddress: string
    var walletName: string
    var showQR: bool

    constructor ()
      ensures selectedType == None && walletAddress == "" && walletName == "" && !showQR
    {
      selectedType := None;
      walletAddress := "";
      walletName := "";
      showQR := false;
    }

    /** Clicking either wallet-type card selects it and hides the QR code. */
    method SelectType(t: WalletType)
      modifies this`selectedType, this`showQR
      ensures selectedType == Some(t) && !showQR
    {
      selectedType := Some(t);
      showQR := false;
    }

    method SetWalletAddress(s: string)
      modifies this`walletAddress
      ensures walletAddress == s
    {
      walletAddress := s;
    }

    method SetWalletName(s: string)
      modifies this`walletName
      ensures walletName == s
    {
      walletName := s;
    }

    /** The MetaMask connect button: a request only when MetaMask is selected and
        an address was typed; the address is passed on unchanged. */
    method HandleConnect() returns (request: Option<ConnectRequest>)
      ensures request.Some? <==> selectedType == Some(MetaMask) && walletAddress != ""
      ensures request.Some? ==> request.value.address == walletAddress && request.value.kind == MetaMask
      ensures request.Some? ==> request.value.name == MetaMaskName(walletAddress, walletName)
    {
      if selectedType == Some(MetaMask) && walletAddress != "" {
        request := Some(ConnectRequest(walletAddress, MetaMask, MetaMaskName(walletAddress, walletName)));
      } else {
        request := None;
      }
    }

    /** Exchange authorisation, first step: the QR code appears. */
    method StartBnbAuth()
      modifies this`showQR
      ensures showQR
    {
      showQR := true;
    }

    /** Exchange authorisation, after the delay: the fixed request is emitted and
        the QR code is hidden again. */
    method FinishBnbAuth() returns (request: ConnectRequest)
      modifies this`showQR
      ensures request == ConnectRequest(BnbAddress, Bnb, BnbName(walletName))
      ensures !showQR
    {
      request := ConnectRequest(BnbAddress, Bnb, BnbName(walletName));
      showQR := false;
    }
  }
}

/**
 * The EVM adapter (src/wallets/EVMWallet.js). It talks to an injected EIP-1193 provider
 * (`window.ethereum`) through `request({method, params})`. Every operation is a function from the
 * wallet and the provider's replies to the requests it issued, in order, and its outcome.
 */
module EVMWallet {
  import opened Js
  import opened Numbers
  import BaseWallet

  /** The injected provider, as far as the adapter reads it. */
  datatype EthereumProvider = EthereumProvider(selectedAddress: Value)

  /** An EVMWallet instance: the base fields and `this.wallet` (`window.ethereum || null`). */
  datatype EvmWallet = EvmWallet(base: BaseWallet.BaseFields, provider: Option<EthereumProvider>)

  /** `new EVMWallet({chainId, rpcUrl})`, given the provider found in the page, if any. */
  function New(chainId: Value, rpcUrl: Value, ethereum: Option<EthereumProvider>): (w: EvmWallet)
    ensures w.base == BaseWallet.BaseFields(chainId, Str(BaseWallet.EVM), rpcUrl)
    ensures w.provider == ethereum
  {
    BaseWallet.AdapterTagStored(chainId, BaseWallet.EVM, rpcUrl);
    var config := BaseWallet.Config(chainId, Str(BaseWallet.EVM), rpcUrl);
    EvmWallet(BaseWallet.Construct(config).value, ethereum)
  }

  /** The code a provider uses to reject `wallet_switchEthereumChain` for a chain it does not know
      (EIP-3326). */
  const UNRECOGNIZED_CHAIN := 4902

  /** The fixed metadata the adapter registers a chain with. */
  const CHAIN_NAME := "Custom EVM Chain"
  datatype NativeCurrency = NativeCurrency(name: string, symbol: string, decimals: nat)
  const NATIVE_CURRENCY := NativeCurrency("Token", "TKN", 18)

  /** The parameter object of `wallet_addEthereumChain` (EIP-3085). */
  datatype AddChainParameter = AddChainParameter(
    chainId: string, rpcUrls: seq<Value>, chainName: string,
    nativeCurrency: NativeCurrency, blockExplorerUrls: seq<Value>)

  /** The transaction object passed to `eth_sendTransaction`. */
  datatype TxRequest = TxRequest(from: Value, to: Value, value: string)

  /** The provider requests the adapter issues. */
  datatype Request =
    | WalletSwitchEthereumChain(chainId: string)
    | WalletAddEthereumChain(chain: AddChainParameter)
    | EthRequestAccounts
    | EthGetBalance(address: Value, block: string)
    | EthSendTransaction(tx: TxRequest)

  /** The provider's answer to each request `connect` may issue, used only if it is issued. */
  datatype ConnectReplies = ConnectReplies(
    switchChain: Result<Value>, addChain: Result<Value>, requestAccounts: Result<Value>)

  /** `'0x' + parseInt(chainId).toString(16)` */
  function ChainIdHex(chainId: Value): (hex: string)
    ensures |hex| >= 3 && hex[..2] == "0x"
    ensures ParseIntValue(chainId, 0).Num? && ParseIntValue(chainId, 0).n >= 0 ==>
              Canonical(hex[2..], 16) && ParseInt(hex, 0) == Int(ParseIntValue(chainId, 0).n)
  {
    var p := ParseInt(ToText(chainId), 0);
    var digits := NumberToRadix(p, 16);
    HexOfParsed(p);
    assert ("0x" + digits)[2..] == digits;
    "0x" + digits
  }

  /** A non-negative parsed number is written as its canonical hexadecimal digits, which `parseInt`
      reads back. */
  lemma HexOfParsed(p: Parsed)
    ensures p.Int? && p.value >= 0 ==>
              NumberToRadix(p, 16) == ToRadix(p.value, 16)
              && ParseInt("0x" + NumberToRadix(p, 16), 0) == Int(p.value)
  {
    if p.Int? && p.value >= 0 {
      ParseHexQuantity(p.value, 0);
    }
  }

  /** A chain id given as a decimal number is sent as its canonical hexadecimal quantity. */
  lemma ChainIdHexOfNumber(n: nat)
    requires n < Pow10(21)
    ensures ChainIdHex(Num(n)) == "0x" + ToRadix(n, 16)
  {
    ParseDecimalString(n);
  }

  /** The `code` property of what the switch request rejected with. */
  function ErrorCode(e: Error): Value {
    if e.Rejection? then e.code else Undefined
  }

  /** The parameter `connect` registers the wallet's chain with. */
  function AddChainFor(w: EvmWallet): (p: AddChainParameter)
    ensures p.chainId == ChainIdHex(w.base.chainId) && p.rpcUrls == [w.base.rpcUrl]
    ensures p.chainName == CHAIN_NAME && p.nativeCurrency.decimals == 18 && p.blockExplorerUrls == []
  {
    AddChainParameter(ChainIdHex(w.base.chainId), [w.base.rpcUrl], CHAIN_NAME, NATIVE_CURRENCY, [])
  }

  /** Whether the switch step is recovered by registering the chain. */
  predicate Recoverable(w: EvmWallet, e: Error) {
    ErrorCode(e) == Num(UNRECOGNIZED_CHAIN) && Truthy(w.base.rpcUrl)
  }

  /** The switch step of `connect` (lines 12-33): the requests it issues and whether it failed. */
  function SwitchStep(w: EvmWallet, replies: ConnectReplies): (x: Exchange<Request, Value>)
    ensures !Truthy(w.base.chainId) ==> x == Exchange([], Ok(Undefined))
    ensures Truthy(w.base.chainId) ==>
              |x.requests| >= 1 && x.requests[0] == WalletSwitchEthereumChain(ChainIdHex(w.base.chainId))
    ensures |x.requests| <= 2
    ensures |x.requests| == 2 <==>
              Truthy(w.base.chainId) && replies.switchChain.Err? && Recoverable(w, replies.switchChain.error)
    ensures |x.requests| == 2 ==> x.requests[1] == WalletAddEthereumChain(AddChainFor(w))
    ensures x.result.Err? ==> x.result == replies.switchChain
                              || (|x.requests| == 2 && x.result == replies.addChain)
    ensures Truthy(w.base.chainId) && replies.switchChain.Ok? ==> x.result == Ok(Undefined)
    ensures Truthy(w.base.chainId) && replies.switchChain.Err? && !Recoverable(w, replies.switchChain.error) ==>
              x.result == replies.switchChain
    ensures |x.requests| == 2 && replies.addChain.Ok? ==> x.result == Ok(Undefined)
    ensures |x.requests| == 2 && replies.addChain.Err? ==> x.result == replies.addChain
  {
    if !Truthy(w.base.chainId) then Exchange([], Ok(Undefined))
    else
      var switch := WalletSwitchEthereumChain(ChainIdHex(w.base.chainId));
      match replies.switchChain
      case Ok(_) => Exchange([switch], Ok(Undefined))
      case Err(e) =>
        if Recoverable(w, e) then
          var added := match replies.addChain
            case Ok(_) => Ok(Undefined)
            case Err(e2) => Err(e2);
          Exchange([switch, WalletAddEthereumChain(AddChainFor(w))], added)
        else Exchange([switch], Err(e))
  }

  /** `connect()` */
  function Connect(w: EvmWallet, replies: ConnectReplies): (x: Exchange<Request, Value>)
    ensures w.provider.None? ==> x == Exchange([], Err(Error("MetaMask not found")))
    ensures w.provider.Some? && !Truthy(w.base.chainId) ==> x.requests == [EthRequestAccounts]
    ensures w.provider.Some? && Truthy(w.base.chainId) ==>
              |x.requests| >= 1 && x.requests[0] == WalletSwitchEthereumChain(ChainIdHex(w.base.chainId))
    ensures forall i :: 1 <= i < |x.requests| ==> !x.requests[i].WalletSwitchEthereumChain?
    ensures (exists i :: 0 <= i < |x.requests| && x.requests[i].WalletAddEthereumChain?) <==>
              w.provider.Some? && Truthy(w.base.chainId) && replies.switchChain.Err?
              && Recoverable(w, replies.switchChain.error)
    ensures forall i :: 0 <= i < |x.requests| && x.requests[i].WalletAddEthereumChain? ==>
              i == 1 && x.requests[i].chain == AddChainFor(w)
    ensures w.provider.Some? && Truthy(w.base.chainId) && replies.switchChain.Err?
            && !Recoverable(w, replies.switchChain.error) ==>
              x == Exchange([WalletSwitchEthereumChain(ChainIdHex(w.base.chainId))],
                            Err(replies.switchChain.error))
    ensures EthRequestAccounts in x.requests ==> x.requests[|x.requests| - 1] == EthRequestAccounts
    ensures x.result.Ok? ==>
              EthRequestAccounts in x.requests && replies.requestAccounts.Ok?
              && x.result == At(replies.requestAccounts.value, 0)
    ensures w.provider.Some? && SwitchStep(w, replies).result.Err? ==> x == SwitchStep(w, replies)
    ensures w.provider.Some? && SwitchStep(w, replies).result.Ok? ==>
              && x.requests == SwitchStep(w, replies).requests + [EthRequestAccounts]
              && (replies.requestAccounts.Ok? ==> x.result == At(replies.requestAccounts.value, 0))
              && (replies.requestAccounts.Err? ==> x.result == replies.requestAccounts)
  {
    if w.provider.None? then Exchange([], Err(Error("MetaMask not found")))
    else
      var switched := SwitchStep(w, replies);
      if switched.result.Err? then switched
      else
        var requests := switched.requests + [EthRequestAccounts];
        assert requests[|requests| - 1] == EthRequestAccounts;
        assert forall i :: 0 <= i < |switched.requests| ==> requests[i] == switched.requests[i];
        assert |switched.requests| == 2 ==> requests[1].WalletAddEthereumChain?;
        match replies.requestAccounts
        case Err(e) => Exchange(requests, Err(e))
        case Ok(accounts) => Exchange(requests, At(accounts, 0))
  }

  /** The adapter's chain is registered only when the provider reports it unknown, and then with
      the chain id it was asked to switch to. */
  lemma AddedChainMatchesSwitch(w: EvmWallet, replies: ConnectReplies)
    requires w.provider.Some? && Truthy(w.base.chainId)
    requires replies.switchChain == Err(Rejection(Num(UNRECOGNIZED_CHAIN), "Unrecognized chain"))
    requires Truthy(w.base.rpcUrl) && replies.addChain.Ok? && replies.requestAccounts.Ok?
    ensures Connect(w, replies).requests ==
              [WalletSwitchEthereumChain(ChainIdHex(w.base.chainId)), WalletAddEthereumChain(AddChainFor(w)),
               EthRequestAccounts]
    ensures Connect(w, replies).requests[1].chain.chainId == ChainIdHex(w.base.chainId)
  {
  }

  /** `connected`: `!!(wallet && wallet.selectedAddress)`, a boolean whatever the provider holds. */
  predicate Connected(w: EvmWallet): (b: bool)
    ensures b ==> w.provider.Some? && w.provider.value.selectedAddress !in {Undefined, Null, Bool(false), NaN, Str("")}
    ensures w.provider.Some? && w.provider.value.selectedAddress.Str? ==>
              (b <==> w.provider.value.selectedAddress.s != "")
  {
    w.provider.Some? && Truthy(w.provider.value.selectedAddress)
  }

  /** The `publicKey` getter. */
  function PublicKey(w: EvmWallet): (r: Result<Value>)
    ensures r.Err? <==> !Connected(w)
    ensures r.Err? ==> r.error == Error("Wallet not connected")
    ensures r.Ok? ==> r.value == w.provider.value.selectedAddress && Truthy(r.value)
  {
    if w.provider.None? || !Truthy(w.provider.value.selectedAddress) then
      Err(Error("Wallet not connected"))
    else Ok(w.provider.value.selectedAddress)
  }

  /** `disconnect()` issues nothing and resolves to undefined. */
  function Disconnect(w: EvmWallet): (x: Exchange<Request, Value>)
    ensures x.requests == [] && x.result == Ok(Undefined)
  {
    Exchange([], Ok(Undefined))
  }

  /** `getBalance()`: the hexadecimal wei quantity the provider answers, read with
      `parseInt(bal, 16)`, in units of 10^18. */
  function GetBalance(w: EvmWallet, reply: Result<Value>): (x: Exchange<Request, BaseWallet.Amount>)
    ensures w.provider.None? ==> x == Exchange([], Err(Error("MetaMask not found")))
    ensures w.provider.Some? ==>
              x.requests == [EthGetBalance(w.provider.value.selectedAddress, "latest")]
    ensures x.result.Ok? ==> reply.Ok? && x.result.value.decimals == 18
                             && x.result.value.baseUnits == ParseIntValue(reply.value, 16)
    ensures w.provider.Some? && reply.Err? ==> x.result == Err(reply.error)
    ensures w.provider.Some? && reply.Ok? ==>
              x.result == Ok(BaseWallet.Amount(ParseIntValue(reply.value, 16), 18))
  {
    if w.provider.None? then Exchange([], Err(Error("MetaMask not found")))
    else
      var requests := [EthGetBalance(w.provider.value.selectedAddress, "latest")];
      match reply
      case Err(e) => Exchange(requests, Err(e))
      case Ok(bal) => Exchange(requests, Ok(BaseWallet.Amount(ParseIntValue(bal, 16), 18)))
  }

  /** A balance the provider reports as a canonical hexadecimal quantity is read back exactly. */
  lemma GetBalanceReadsQuantity(w: EvmWallet, wei: nat)
    requires w.provider.Some?
    ensures GetBalance(w, Ok(Str("0x" + ToRadix(wei, 16)))).result == Ok(BaseWallet.Amount(Num(wei), 18))
  {
    ParseHexQuantity(wei, 16);
  }

  /** The reply "0x2540be400" is 10^10 wei. */
  lemma GetBalanceExample(w: EvmWallet)
    requires w.provider.Some?
    ensures GetBalance(w, Ok(Str("0x2540be400"))).result == Ok(BaseWallet.Amount(Num(10000000000), 18))
  {
    var digits := "2540be400";
    ExampleDigits();
    ToRadixFromDigits(digits, 16);
    var wei := FromDigits(digits, 16);
    assert "0x" + ToRadix(wei, 16) == "0x2540be400";
    GetBalanceReadsQuantity(w, wei);
  }

  /** The value of the example's hexadecimal digits. */
  lemma ExampleDigits()
    ensures Canonical("2540be400", 16) && FromDigits("2540be400", 16) == 10000000000
  {
    var digits := "2540be400";
    assert FromDigits("2", 16) == 2;
    assert "25"[..1] == "2";
    assert FromDigits("25", 16) == 37;
    assert "254"[..2] == "25";
    assert FromDigits("254", 16) == 596;
    assert "2540"[..3] == "254";
    assert FromDigits("2540", 16) == 9536;
    assert "2540b"[..4] == "2540";
    assert FromDigits("2540b", 16) == 152587;
    assert "2540be"[..5] == "2540b";
    assert FromDigits("2540be", 16) == 2441406;
    assert "2540be4"[..6] == "2540be";
    assert FromDigits("2540be4", 16) == 39062500;
    assert "2540be40"[..7] == "2540be4";
    assert FromDigits("2540be40", 16) == 625000000;
    assert digits[..8] == "2540be40";
    assert FromDigits(digits, 16) == 10000000000;
  }

  /** `signTransaction()` always rejects. */
  function SignTransaction(w: EvmWallet): (r: Result<Value>)
    ensures r == Err(Error("signTransaction not implemented for EVM"))
  {
    Err(Error("signTransaction not implemented for EVM"))
  }

  /** The `value` field: `'0x' + lamports.toString(16)`. */
  function TxValue(lamports: Value): (r: Result<string>)
    ensures r.Err? <==> lamports == Undefined || lamports == Null
    ensures r.Ok? ==> |r.value| >= 2 && r.value[..2] == "0x"
    ensures lamports.Num? && lamports.n >= 0 ==>
              r.Ok? && Canonical(r.value[2..], 16) && ParseInt(r.value, 0) == Int(lamports.n)
  {
    match ToStringRadix(lamports, 16)
    case Err(e) => Err(e)
    case Ok(digits) =>
      HexOfParsed(if lamports.Num? then Int(lamports.n) else NotANumber);
      assert ("0x" + digits)[2..] == digits;
      Ok("0x" + digits)
  }

  /** `signAndSendTransaction({to, lamports})` */
  function SignAndSendTransaction(w: EvmWallet, params: Value, reply: Result<Value>)
    : (x: Exchange<Request, Value>)
    ensures params == Undefined || params == Null ==> x.requests == [] && x.result.Err? && x.result.error.TypeError?
    ensures params != Undefined && params != Null && w.provider.None? ==>
              x == Exchange([], Err(Error("MetaMask not found")))
    ensures |x.requests| <= 1
    ensures |x.requests| == 1 <==>
              w.provider.Some? && BaseWallet.TransferParams(params).Ok?
              && TxValue(BaseWallet.TransferParams(params).value.lamports).Ok?
    ensures |x.requests| == 1 ==>
              var t := BaseWallet.TransferParams(params).value;
              x.requests[0] == EthSendTransaction(TxRequest(w.provider.value.selectedAddress, t.to,
                                                         TxValue(t.lamports).value))
              && x.result == reply
    ensures w.provider.Some? && BaseWallet.TransferParams(params).Ok?
            && TxValue(BaseWallet.TransferParams(params).value.lamports).Err? ==>
              x == Exchange([], Err(TxValue(BaseWallet.TransferParams(params).value.lamports).error))
              && x.result.error.TypeError?
  {
    match BaseWallet.TransferParams(params)
    case Err(e) => Exchange([], Err(e))
    case Ok(t) =>
      if w.provider.None? then Exchange([], Err(Error("MetaMask not found")))
      else
        match TxValue(t.lamports)
        case Err(e) => Exchange([], Err(e))
        case Ok(value) =>
          Exchange([EthSendTransaction(TxRequest(w.provider.value.selectedAddress, t.to, value))], reply)
  }

  /** While connected, the account `publicKey` reports is the one whose balance is queried and
      the one every transfer is sent from. */
  lemma ConnectedAccountIsUsed(w: EvmWallet, params: Value, reply: Result<Value>)
    requires Connected(w)
    ensures PublicKey(w).Ok?
    ensures GetBalance(w, reply).requests == [EthGetBalance(PublicKey(w).value, "latest")]
    ensures |SignAndSendTransaction(w, params, reply).requests| == 1 ==>
              SignAndSendTransaction(w, params, reply).requests[0].tx.from == PublicKey(w).value
  {
  }

  /** An integral amount of wei is sent as the hexadecimal quantity that reads back as it. */
  lemma SentValueRoundTrips(w: EvmWallet, to: Value, wei: nat, reply: Result<Value>)
    requires w.provider.Some?
    ensures var x := SignAndSendTransaction(w, Obj(map["to" := to, "lamports" := Num(wei)]), reply);
            |x.requests| == 1 && x.requests[0].tx.to == to
            && ParseInt(x.requests[0].tx.value, 16) == Int(wei)
  {
    var params := Obj(map["to" := to, "lamports" := Num(wei)]);
    assert BaseWallet.TransferParams(params) == Ok(BaseWallet.Transfer(to, Num(wei)));
    assert TxValue(Num(wei)) == Ok("0x" + ToRadix(wei, 16));
    ParseHexQuantity(wei, 16);
  }
}

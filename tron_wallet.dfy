/**
 * The Tron adapter (src/wallets/TronWallet.js). It reads the injected TronLink object
 * (`window.tronWeb`): the account is `defaultAddress.base58`, balances and transfers go through
 * `trx.getBalance` and `trx.sendTransaction`.
 */
module TronWallet {
  import opened Js
  import BaseWallet

  /** The injected TronWeb object, as far as the adapter reads it. */
  datatype TronWeb = TronWeb(defaultAddress: Value)

  /** A TronWallet instance: the base fields and `this.wallet` (`window.tronWeb || null`). */
  datatype TronWallet = TronWallet(base: BaseWallet.BaseFields, provider: Option<TronWeb>)

  /** The calls the adapter makes on `tronWeb.trx`. */
  datatype Request =
    | TrxGetBalance(address: Value)
    | TrxSendTransaction(to: Value, amount: Value)

  /** `new TronWallet({chainId, rpcUrl})`, given the TronWeb object found in the page, if any. */
  function New(chainId: Value, rpcUrl: Value, tronWeb: Option<TronWeb>): (w: TronWallet)
    ensures w.base == BaseWallet.BaseFields(chainId, Str(BaseWallet.TRON), rpcUrl)
    ensures w.provider == tronWeb
  {
    BaseWallet.AdapterTagStored(chainId, BaseWallet.TRON, rpcUrl);
    var config := BaseWallet.Config(chainId, Str(BaseWallet.TRON), rpcUrl);
    TronWallet(BaseWallet.Construct(config).value, tronWeb)
  }

  const NOT_FOUND := "TronLink not found"

  /** `defaultAddress.base58`, which throws when there is no default address object. */
  function Base58(t: TronWeb): (r: Result<Value>)
    ensures r.Err? <==> t.defaultAddress == Undefined || t.defaultAddress == Null
    ensures r.Ok? && t.defaultAddress.Obj? && "base58" in t.defaultAddress.fields ==>
              r.value == t.defaultAddress.fields["base58"]
  {
    Get(t.defaultAddress, "base58")
  }

  /** `connect()`: TronLink needs no handshake, so it issues nothing and returns the address. */
  function Connect(w: TronWallet): (x: Exchange<Request, Value>)
    ensures x.requests == []
    ensures w.provider.None? ==> x.result == Err(Error(NOT_FOUND))
    ensures w.provider.Some? ==> x.result == Base58(w.provider.value)
  {
    if w.provider.None? then Exchange([], Err(Error(NOT_FOUND)))
    else Exchange([], Base58(w.provider.value))
  }

  /** `disconnect()` issues nothing and resolves to undefined. */
  function Disconnect(w: TronWallet): (x: Exchange<Request, Value>)
    ensures x.requests == [] && x.result == Ok(Undefined)
  {
    Exchange([], Ok(Undefined))
  }

  /** `connected`: provider, default address and its base58 text are all truthy. */
  predicate Connected(w: TronWallet): (b: bool)
    ensures b <==> Connect(w).result.Ok? && Truthy(Connect(w).result.value)
  {
    && w.provider.Some?
    && Truthy(w.provider.value.defaultAddress)
    && Truthy(Base58(w.provider.value).value)
  }

  /** The `publicKey` getter as written: it checks the provider and `defaultAddress`, not the
      address text itself. */
  function PublicKeyAsWritten(w: TronWallet): (r: Result<Value>)
    ensures r.Err? <==> w.provider.None? || !Truthy(w.provider.value.defaultAddress)
    ensures r.Err? ==> r.error == Error("Wallet not connected")
    ensures r.Ok? ==> r == Base58(w.provider.value)
  {
    if w.provider.None? || !Truthy(w.provider.value.defaultAddress) then
      Err(Error("Wallet not connected"))
    else Base58(w.provider.value)
  }

  /** A locked TronLink keeps a default address object whose `base58` is `false`: the getter then
      returns `false` although `connected` is false. */
  lemma PublicKeyOfLockedWallet(w: TronWallet)
    requires w.provider == Some(TronWeb(Obj(map["base58" := Bool(false), "hex" := Bool(false)])))
    ensures !Connected(w)
    ensures PublicKeyAsWritten(w) == Ok(Bool(false))
  {
  }

  /** The `publicKey` getter as evidently intended: it fails exactly when `connected` is false,
      and otherwise returns the (truthy) address. */
  function PublicKey(w: TronWallet): (r: Result<Value>)
    ensures r.Err? <==> !Connected(w)
    ensures r.Err? ==> r.error == Error("Wallet not connected")
    ensures r.Ok? ==> r == Base58(w.provider.value) && Truthy(r.value)
  {
    if !Connected(w) then Err(Error("Wallet not connected"))
    else Base58(w.provider.value)
  }

  /** The two getters agree wherever the wallet is connected. */
  lemma PublicKeyAgreesWhenConnected(w: TronWallet)
    requires Connected(w)
    ensures PublicKeyAsWritten(w) == PublicKey(w)
  {
  }

  /** `getBalance()`: the balance in sun, in units of 10^6. */
  function GetBalance(w: TronWallet, reply: Result<Value>): (x: Exchange<Request, BaseWallet.Amount>)
    ensures w.provider.None? ==> x == Exchange([], Err(Error(NOT_FOUND)))
    ensures w.provider.Some? && Base58(w.provider.value).Err? ==>
              x == Exchange([], Err(Base58(w.provider.value).error))
    ensures |x.requests| <= 1
    ensures |x.requests| == 1 <==> w.provider.Some? && Base58(w.provider.value).Ok?
    ensures |x.requests| == 1 ==> x.requests[0] == TrxGetBalance(Base58(w.provider.value).value)
    ensures x.result.Ok? ==> reply.Ok? && x.result.value == BaseWallet.Amount(reply.value, 6)
    ensures |x.requests| == 1 && reply.Err? ==> x.result == Err(reply.error)
    ensures |x.requests| == 1 && reply.Ok? ==> x.result == Ok(BaseWallet.Amount(reply.value, 6))
  {
    if w.provider.None? then Exchange([], Err(Error(NOT_FOUND)))
    else
      match Base58(w.provider.value)
      case Err(e) => Exchange([], Err(e))
      case Ok(address) =>
        var requests := [TrxGetBalance(address)];
        match reply
        case Err(e) => Exchange(requests, Err(e))
        case Ok(sun) => Exchange(requests, Ok(BaseWallet.Amount(sun, 6)))
  }

  /** `signTransaction()` always rejects. */
  function SignTransaction(w: TronWallet): (r: Result<Value>)
    ensures r == Err(Error("signTransaction not implemented for Tron"))
  {
    Err(Error("signTransaction not implemented for Tron"))
  }

  /** `signAndSendTransaction({to, lamports})`: forwards both values to `trx.sendTransaction`. */
  function SignAndSendTransaction(w: TronWallet, params: Value, reply: Result<Value>)
    : (x: Exchange<Request, Value>)
    ensures params == Undefined || params == Null ==>
              x.requests == [] && x.result.Err? && x.result.error.TypeError?
    ensures params != Undefined && params != Null && w.provider.None? ==>
              x == Exchange([], Err(Error(NOT_FOUND)))
    ensures |x.requests| <= 1
    ensures |x.requests| == 1 <==> w.provider.Some? && BaseWallet.TransferParams(params).Ok?
    ensures |x.requests| == 1 ==>
              var t := BaseWallet.TransferParams(params).value;
              x.requests[0] == TrxSendTransaction(t.to, t.lamports) && x.result == reply
  {
    match BaseWallet.TransferParams(params)
    case Err(e) => Exchange([], Err(e))
    case Ok(t) =>
      if w.provider.None? then Exchange([], Err(Error(NOT_FOUND)))
      else Exchange([TrxSendTransaction(t.to, t.lamports)], reply)
  }

  /** An object argument's `to` and `lamports` reach TronLink unchanged. */
  lemma TransferForwarded(w: TronWallet, to: Value, amount: Value, reply: Result<Value>)
    requires w.provider.Some?
    ensures SignAndSendTransaction(w, Obj(map["to" := to, "lamports" := amount]), reply)
            == Exchange([TrxSendTransaction(to, amount)], reply)
  {
    var params := Obj(map["to" := to, "lamports" := amount]);
    assert BaseWallet.TransferParams(params) == Ok(BaseWallet.Transfer(to, amount));
  }
}

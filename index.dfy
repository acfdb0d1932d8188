/**
 * The public entry point (src/index.js): `Wallet` builds an adapter through the factory and
 * forwards every call to it unchanged. Each member takes the replies of the party the wrapped
 * adapter would ask (the Solana host bridge and endpoint, the EVM provider, TronLink); only the
 * ones of the wrapped adapter are used.
 */
module Index {
  import opened Js
  import BaseWallet
  import EVMWallet
  import TronWallet
  import SolanaWallet
  import opened WalletFactory

  /** What a caller passes where the facade forwards a transaction or transfer parameters. */
  type TxArg = SolanaWallet.TxArg

  /** The value an EVM or Tron adapter destructures `{to, lamports}` from: a Solana `Transaction`
      object has neither property. */
  function ParamsValue(arg: TxArg): (v: Value)
    ensures arg.NotTransaction? ==> v == arg.other
    ensures arg.Tx? ==> BaseWallet.TransferParams(v) == Ok(BaseWallet.Transfer(Undefined, Undefined))
  {
    match arg
    case Tx(_) => Obj(map[])
    case NotTransaction(other) => other
  }

  /** What `signAndSendTransaction` resolves to: a Solana receipt, or what a provider returned. */
  datatype Receipt = SolanaReceipt(sent: SolanaWallet.Sent) | ProviderReceipt(reply: Value)

  /** A Solana `connect` resolves to the key object. */
  function KeyResult(r: Result<PublicKey>): (v: Result<Value>)
    ensures v.Ok? <==> r.Ok?
    ensures r.Ok? ==> v.value == Key(r.value)
    ensures r.Err? ==> v.error == r.error
  {
    match r
    case Ok(k) => Ok(Key(k))
    case Err(e) => Err(e)
  }

  /** A `Wallet` instance: the adapter the factory built. */
  datatype Wallet = Wallet(adapter: Adapter)
  {
    /** The objects the facade may read or change: the Solana adapter, if that is the one. */
    function Objects(): set<object> {
      if adapter.Solana? then {adapter.sol} else {}
    }

    predicate Valid()
      reads Objects()
    {
      adapter.Solana? ==> adapter.sol.Valid()
    }

    /** `connect()` */
    method Connect(solanaReply: Result<Value>, evmReplies: EVMWallet.ConnectReplies) returns (r: Result<Value>)
      requires Valid()
      modifies Objects()
      ensures Valid()
      ensures adapter.Solana? ==>
                var s := SolanaWallet.ConnectStep(adapter.sol.accepts, old(adapter.sol.Snapshot()), solanaReply);
                adapter.sol.Snapshot() == s.view && r == KeyResult(s.result)
      ensures adapter.Tron? ==> r == TronWallet.Connect(adapter.tron).result
      ensures adapter.Evm? ==> r == EVMWallet.Connect(adapter.evm, evmReplies).result
    {
      match adapter {
        case Solana(sol) =>
          var k := sol.Connect(solanaReply);
          r := KeyResult(k);
        case Tron(tron) =>
          r := TronWallet.Connect(tron).result;
        case Evm(evm) =>
          r := EVMWallet.Connect(evm, evmReplies).result;
      }
    }

    /** `disconnect()` */
    method Disconnect(solanaReply: Result<Value>) returns (r: Result<Value>)
      requires Valid()
      modifies Objects()
      ensures Valid()
      ensures adapter.Solana? ==>
                var s := SolanaWallet.DisconnectStep(old(adapter.sol.Snapshot()), solanaReply);
                adapter.sol.Snapshot() == s.view && r == s.result
      ensures adapter.Tron? ==> r == TronWallet.Disconnect(adapter.tron).result
      ensures adapter.Evm? ==> r == EVMWallet.Disconnect(adapter.evm).result
    {
      match adapter {
        case Solana(sol) =>
          r := sol.Disconnect(solanaReply);
        case Tron(tron) =>
          r := TronWallet.Disconnect(tron).result;
        case Evm(evm) =>
          r := EVMWallet.Disconnect(evm).result;
      }
    }

    /** The `publicKey` getter: the wrapped adapter's getter, the Tron one as written. */
    function PublicKey(): (r: Result<Value>)
      reads Objects()
      ensures adapter.Solana? ==> r == Ok(SolanaWallet.PublicKeyOf(adapter.sol.Snapshot()))
      ensures adapter.Tron? ==> r == TronWallet.PublicKeyAsWritten(adapter.tron)
      ensures adapter.Evm? ==> r == EVMWallet.PublicKey(adapter.evm)
    {
      match adapter
      case Solana(sol) => Ok(sol.PublicKeyValue())
      case Tron(tron) => TronWallet.PublicKeyAsWritten(tron)
      case Evm(evm) => EVMWallet.PublicKey(evm)
    }

    /** The `connected` getter as written: SolanaWallet defines `isConnected` but no `connected`,
        so for a Solana wallet the BaseWallet getter runs and throws. */
    function ConnectedAsWritten(): (r: Result<Value>)
      reads Objects()
      ensures adapter.Solana? ==> r == BaseWallet.CallInherited(BaseWallet.ConnectedGetter)
      ensures adapter.Tron? ==> r == Ok(Bool(TronWallet.Connected(adapter.tron)))
      ensures adapter.Evm? ==> r == Ok(Bool(EVMWallet.Connected(adapter.evm)))
    {
      match adapter
      case Solana(_) => BaseWallet.CallInherited(BaseWallet.ConnectedGetter)
      case Tron(tron) => Ok(Bool(TronWallet.Connected(tron)))
      case Evm(evm) => Ok(Bool(EVMWallet.Connected(evm)))
    }

    /** The `connected` getter as evidently intended: every adapter reports whether it holds an
        account, and it never throws. */
    function Connected(): (r: Result<Value>)
      reads Objects()
      ensures r.Ok? && r.value.Bool?
      ensures Valid() ==> (r.value.b <==> PublicKey().Ok? && Truthy(PublicKey().value))
    {
      match adapter
      case Solana(sol) => Ok(Bool(sol.IsConnected()))
      case Tron(tron) => Ok(Bool(TronWallet.Connected(tron)))
      case Evm(evm) => Ok(Bool(EVMWallet.Connected(evm)))
    }

    /** `getBalance()`: the adapter is called without an argument, so a Solana wallet uses its
        stored key. */
    method GetBalance(solanaReply: Result<Value>, tronReply: Result<Value>, evmReply: Result<Value>)
      returns (r: Result<BaseWallet.Amount>)
      requires Valid()
      modifies Objects()
      ensures Valid()
      ensures adapter.Solana? ==>
                var s := SolanaWallet.GetBalanceStep(adapter.sol.accepts, old(adapter.sol.Snapshot()), Undefined, solanaReply);
                adapter.sol.Snapshot() == s.view && r == s.result
      ensures adapter.Tron? ==> r == TronWallet.GetBalance(adapter.tron, tronReply).result
      ensures adapter.Evm? ==> r == EVMWallet.GetBalance(adapter.evm, evmReply).result
    {
      match adapter {
        case Solana(sol) =>
          r := sol.GetBalance(Undefined, solanaReply);
        case Tron(tron) =>
          r := TronWallet.GetBalance(tron, tronReply).result;
        case Evm(evm) =>
          r := EVMWallet.GetBalance(evm, evmReply).result;
      }
    }

    /** `signTransaction(transaction)`; the EVM and Tron adapters ignore the argument and reject. */
    method SignTransaction(transaction: TxArg, replies: SolanaWallet.SignReplies)
      returns (r: Result<SolanaWallet.Transaction>)
      requires Valid()
      modifies Objects()
      ensures Valid()
      ensures adapter.Solana? ==>
                var s := SolanaWallet.SignTransactionStep(old(adapter.sol.Snapshot()), old(SolanaWallet.Input(transaction)), replies);
                adapter.sol.Snapshot() == s.view && SolanaWallet.Delivered(r, s.result)
      ensures adapter.Tron? ==> r == Err(TronWallet.SignTransaction(adapter.tron).error)
      ensures adapter.Evm? ==> r == Err(EVMWallet.SignTransaction(adapter.evm).error)
    {
      match adapter {
        case Solana(sol) =>
          r := sol.SignTransaction(transaction, replies);
        case Tron(tron) =>
          r := Err(TronWallet.SignTransaction(tron).error);
        case Evm(evm) =>
          r := Err(EVMWallet.SignTransaction(evm).error);
      }
    }

    /** `signAndSendTransaction(params)`: a Solana adapter takes a transaction, the others
        destructure `{to, lamports}`. */
    method SignAndSendTransaction(params: TxArg, solanaReplies: SolanaWallet.SendReplies, reply: Result<Value>)
      returns (r: Result<Receipt>)
      requires Valid()
      modifies Objects()
      ensures Valid()
      ensures adapter.Solana? ==>
                var s := SolanaWallet.SignAndSendStep(old(adapter.sol.Snapshot()), old(SolanaWallet.Input(params)), solanaReplies);
                adapter.sol.Snapshot() == s.view
                && (r.Ok? <==> s.result.Ok?)
                && (r.Ok? ==> r.value == SolanaReceipt(s.result.value))
                && (r.Err? ==> r.error == s.result.error)
      ensures adapter.Tron? ==>
                var x := TronWallet.SignAndSendTransaction(adapter.tron, ParamsValue(params), reply);
                (r.Ok? <==> x.result.Ok?) && (r.Ok? ==> r.value == ProviderReceipt(x.result.value))
                && (r.Err? ==> r.error == x.result.error)
      ensures adapter.Evm? ==>
                var x := EVMWallet.SignAndSendTransaction(adapter.evm, ParamsValue(params), reply);
                (r.Ok? <==> x.result.Ok?) && (r.Ok? ==> r.value == ProviderReceipt(x.result.value))
                && (r.Err? ==> r.error == x.result.error)
    {
      match adapter {
        case Solana(sol) =>
          var sent := sol.SignAndSendTransaction(params, solanaReplies);
          r := if sent.Ok? then Ok(SolanaReceipt(sent.value)) else Err(sent.error);
        case Tron(tron) =>
          var x := TronWallet.SignAndSendTransaction(tron, ParamsValue(params), reply);
          r := if x.result.Ok? then Ok(ProviderReceipt(x.result.value)) else Err(x.result.error);
        case Evm(evm) =>
          var x := EVMWallet.SignAndSendTransaction(evm, ParamsValue(params), reply);
          r := if x.result.Ok? then Ok(ProviderReceipt(x.result.value)) else Err(x.result.error);
      }
    }
  }

  /** `new Wallet({chainId, chainType, rpcUrl})`: the factory's failure is the constructor's. */
  method NewWallet(config: BaseWallet.Config, env: Environment) returns (r: Result<Wallet>)
    ensures r.Ok? <==> SelectChain(config.chainType).Ok?
    ensures r.Err? ==> r.error == SelectChain(config.chainType).error
    ensures r.Ok? ==> r.value.Valid() && fresh(r.value.Objects())
    ensures r.Ok? ==> (r.value.adapter.Solana? <==> SelectChain(config.chainType) == Ok(SolanaChain))
  {
    var adapter := CreateWallet(config, env);
    match adapter {
      case Err(e) =>
        r := Err(e);
      case Ok(a) =>
        r := Ok(Wallet(a));
    }
  }

  /** Reading `connected` on any Solana wallet throws, whatever its state. */
  lemma ConnectedThrowsForSolana(w: Wallet)
    requires w.adapter.Solana?
    ensures w.ConnectedAsWritten() == Err(Error("connected getter must be implemented"))
  {
  }

  /** The written and the intended getter agree on the EVM and Tron adapters. */
  lemma ConnectedAgreesOffSolana(w: Wallet)
    requires !w.adapter.Solana?
    ensures w.ConnectedAsWritten() == w.Connected()
  {
  }

  /** Through the facade, a Solana wallet that holds no key cannot report a balance: the adapter
      is called without an argument and throws before any request. */
  lemma BalanceNeedsKey(accepts: SolanaWallet.KeyDecoder, v: SolanaWallet.View, reply: Result<Value>)
    requires SolanaWallet.Consistent(v) && !v.connected
    ensures SolanaWallet.GetBalanceStep(accepts, v, Undefined, reply)
            == SolanaWallet.Step(v, Err(Error("Public key is required")))
  {
  }
}

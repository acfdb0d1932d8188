/**
 * The base class every chain adapter extends (src/wallets/BaseWallet.js): its constructor stores
 * the chain id, a canonical upper-case chain tag and the RPC URL, and every member it declares
 * fails until an adapter overrides it.
 */
module BaseWallet {
  import opened Js
  import Numbers

  /** The constructor's argument `{chainId, chainType, rpcUrl}`. */
  datatype Config = Config(chainId: Value, chainType: Value, rpcUrl: Value)

  /** The fields the constructor stores on the instance. */
  datatype BaseFields = BaseFields(chainId: Value, chainType: Value, rpcUrl: Value)

  /** The three tags the adapters pass to this constructor. */
  const SOLANA := "SOLANA"
  const TRON := "TRON"
  const EVM := "EVM"

  /** `chainType && chainType.toUpperCase()`: a falsy tag is kept as it is, a string is
      upper-cased, and any other value has no `toUpperCase` to call. */
  function NormalizeChainType(chainType: Value): (r: Result<Value>)
    ensures !Truthy(chainType) ==> r == Ok(chainType)
    ensures r.Ok? && Truthy(chainType) ==>
              chainType.Str? && r.value.Str? && |r.value.s| == |chainType.s|
              && ToUpperCase(r.value.s) == r.value.s
    ensures r.Err? <==> Truthy(chainType) && !chainType.Str?
    ensures r.Ok? && Truthy(chainType) ==> r == Ok(Str(ToUpperCase(chainType.s)))
  {
    if !Truthy(chainType) then Ok(chainType)
    else if chainType.Str? then
      ToUpperCaseIdempotent(chainType.s);
      Ok(Str(ToUpperCase(chainType.s)))
    else Err(TypeError("chainType.toUpperCase is not a function"))
  }

  /** `new BaseWallet({chainId, chainType, rpcUrl})` */
  function Construct(config: Config): (r: Result<BaseFields>)
    ensures r.Ok? ==> r.value.chainId == config.chainId && r.value.rpcUrl == config.rpcUrl
    ensures r.Ok? <==> NormalizeChainType(config.chainType).Ok?
    ensures r.Ok? ==> r.value.chainType == NormalizeChainType(config.chainType).value
    ensures r.Ok? && config.chainType.Str? ==> r.value.chainType == Str(ToUpperCase(config.chainType.s))
    ensures r.Err? ==> r.error.TypeError?
  {
    match NormalizeChainType(config.chainType)
    case Ok(tag) => Ok(BaseFields(config.chainId, tag, config.rpcUrl))
    case Err(e) => Err(e)
  }

  /** Tags that differ only in letter case are stored alike. */
  lemma ConstructIgnoresCase(config: Config, other: string)
    requires config.chainType.Str? && config.chainType.s != "" && other != ""
    requires ToUpperCase(other) == ToUpperCase(config.chainType.s)
    ensures Construct(config) == Construct(config.(chainType := Str(other)))
    ensures Construct(config).Ok?
  {
  }

  /** An adapter's constructor passes one of the three literal tags, which is stored unchanged. */
  lemma AdapterTagStored(chainId: Value, tag: string, rpcUrl: Value)
    requires tag == SOLANA || tag == TRON || tag == EVM
    ensures Construct(Config(chainId, Str(tag), rpcUrl)) == Ok(BaseFields(chainId, Str(tag), rpcUrl))
  {
    assert ToUpperCase(tag) == tag;
  }

  /** The members BaseWallet declares. */
  datatype Member =
    | Connect | Disconnect | PublicKeyGetter | ConnectedGetter
    | GetBalance | SignTransaction | SignAndSendTransaction

  /** What a member throws when the adapter does not override it. */
  function Unimplemented(m: Member): (e: Error)
    ensures e.Error?
  {
    match m
    case Connect => Error("connect() must be implemented")
    case Disconnect => Error("disconnect() must be implemented")
    case PublicKeyGetter => Error("publicKey getter must be implemented")
    case ConnectedGetter => Error("connected getter must be implemented")
    case GetBalance => Error("getBalance() must be implemented")
    case SignTransaction => Error("signTransaction() must be implemented")
    case SignAndSendTransaction => Error("signAndSendTransaction() must be implemented")
  }

  /** A member that is not overridden always fails, with a plain Error whose message names
      that member and no other. */
  function CallInherited<T>(m: Member): (r: Result<T>)
    ensures r.Err? && r.error.Error?
    ensures forall other: Member :: Unimplemented(other).message == r.error.message <==> other == m
  {
    Err(Unimplemented(m))
  }

  /** Each member fails with a message of its own. */
  lemma UnimplementedDistinct(m1: Member, m2: Member)
    requires m1 != m2
    ensures Unimplemented(m1).message != Unimplemented(m2).message
  {
  }

  /** The fields `to` and `lamports` that `signAndSendTransaction({ to, lamports })` destructures
      from its argument. */
  datatype Transfer = Transfer(to: Value, lamports: Value)

  /** Destructuring `{ to, lamports }` from the argument: null and undefined cannot be
      destructured, any other value gives its two properties (undefined when absent). */
  function TransferParams(params: Value): (r: Result<Transfer>)
    ensures r.Err? <==> params == Undefined || params == Null
    ensures params.Obj? ==> r.Ok? && r.value.to == Get(params, "to").value
                            && r.value.lamports == Get(params, "lamports").value
  {
    if params == Undefined || params == Null then
      var shown := ToText(params);
      Err(TypeError("Cannot destructure property 'to' of '" + shown + "' as it is " + shown + "."))
    else Ok(Transfer(Get(params, "to").value, Get(params, "lamports").value))
  }

  /** A balance as the adapters return it: `baseUnits / 10^decimals` in the chain's display unit.
      The division, done in floating point by the source, is kept symbolic. */
  datatype Amount = Amount(baseUnits: Value, decimals: nat)

  /** The exact value an integral amount denotes. */
  function Denoted(a: Amount): real
    requires a.baseUnits.Num?
  {
    a.baseUnits.n as real / Numbers.Pow10(a.decimals) as real
  }
}

/**
 * The factory (src/wallets/WalletFactory.js): `createWallet` upper-cases the chain tag and builds
 * the matching adapter, or throws for any other tag. The objects an adapter finds in the page
 * (`window.ethereum`, `window.tronWeb`) and the Solana key decoder are the `Environment`.
 */
module WalletFactory {
  import opened Js
  import BaseWallet
  import EVMWallet
  import TronWallet
  import SolanaWallet

  /** What the adapters' constructors read besides their arguments. */
  datatype Environment = Environment(
    ethereum: Option<EVMWallet.EthereumProvider>,
    tronWeb: Option<TronWallet.TronWeb>,
    acceptsKey: SolanaWallet.KeyDecoder)

  /** An adapter instance. */
  datatype Adapter =
    | Solana(sol: SolanaWallet.SolanaWallet)
    | Tron(tron: TronWallet.TronWallet)
    | Evm(evm: EVMWallet.EvmWallet)

  /** The adapter variants. */
  datatype ChainKind = SolanaChain | TronChain | EvmChain

  /** The tag each variant is selected by. */
  function TagOf(kind: ChainKind): string {
    match kind
    case SolanaChain => BaseWallet.SOLANA
    case TronChain => BaseWallet.TRON
    case EvmChain => BaseWallet.EVM
  }

  /** `switch (chainType.toUpperCase())`: the variant a tag selects, or what is thrown. */
  function SelectChain(chainType: Value): (r: Result<ChainKind>)
    ensures r.Ok? <==> chainType.Str? && ToUpperCase(chainType.s) in {"SOLANA", "TRON", "EVM"}
    ensures r.Ok? ==> ToUpperCase(chainType.s) == TagOf(r.value)
    ensures r.Err? && chainType.Str? ==> r.error == Error("Unsupported chainType")
    ensures r.Err? && !chainType.Str? ==> r.error.TypeError?
  {
    match chainType
    case Undefined => Err(ReadOfMissing(chainType, "toUpperCase"))
    case Null => Err(ReadOfMissing(chainType, "toUpperCase"))
    case Str(s) =>
      var tag := ToUpperCase(s);
      if tag == "SOLANA" then Ok(SolanaChain)
      else if tag == "TRON" then Ok(TronChain)
      else if tag == "EVM" then Ok(EvmChain)
      else Err(Error("Unsupported chainType"))
    case _ => Err(TypeError("chainType.toUpperCase is not a function"))
  }

  /** Each variant is selected by exactly one upper-case tag. */
  lemma SelectChainInjective(a: Value, b: Value)
    requires SelectChain(a).Ok? && SelectChain(b).Ok?
    ensures SelectChain(a) == SelectChain(b) <==> ToUpperCase(a.s) == ToUpperCase(b.s)
  {
    var ka, kb := SelectChain(a).value, SelectChain(b).value;
    assert TagOf(ka) == TagOf(kb) ==> ka == kb;
  }

  /** The characters whose upper case is the ASCII capital `c`: itself, its small letter, and
      for I and S the dotless i and the long s. */
  predicate UpperOf(x: char, c: char) {
    x == c || ('A' <= c <= 'Z' && x == (c as int + 32) as char) || (c == 'I' && x == '\U{0131}') || (c == 'S' && x == '\U{017F}')
  }

  /** Matching after `toUpperCase()` is letter-by-letter case-insensitive matching. */
  lemma {:induction false} UpperCaseMatch(s: string, tag: string)
    requires forall i :: 0 <= i < |tag| ==> 'A' <= tag[i] <= 'Z'
    ensures ToUpperCase(s) == tag <==> |s| == |tag| && forall i :: 0 <= i < |s| ==> UpperOf(s[i], tag[i])
  {
    if ToUpperCase(s) == tag {
      forall i | 0 <= i < |s|
        ensures UpperOf(s[i], tag[i])
      {
        assert UpperChar(s[i]) == tag[i];
      }
    }
    if |s| == |tag| && forall i :: 0 <= i < |s| ==> UpperOf(s[i], tag[i]) {
      forall i | 0 <= i < |s|
        ensures ToUpperCase(s)[i] == tag[i]
      {
        assert UpperOf(s[i], tag[i]);
      }
    }
  }

  /** 'solana', 'Solana' and 'SOLANA' all select the Solana adapter. */
  lemma SolanaTagsSelectSolana()
    ensures SelectChain(Str("solana")) == Ok(SolanaChain)
    ensures SelectChain(Str("Solana")) == Ok(SolanaChain)
    ensures SelectChain(Str("SOLANA")) == Ok(SolanaChain)
  {
    assert ToUpperCase("solana") == "SOLANA";
    assert ToUpperCase("Solana") == "SOLANA";
    assert ToUpperCase("SOLANA") == "SOLANA";
  }

  /** `WalletFactory.createWallet({chainId, chainType, rpcUrl})`: a new adapter on every call. */
  method CreateWallet(config: BaseWallet.Config, env: Environment) returns (r: Result<Adapter>)
    ensures r.Ok? <==> SelectChain(config.chainType).Ok?
    ensures r.Err? ==> r.error == SelectChain(config.chainType).error
    ensures r.Ok? && r.value.Solana? ==>
              && SelectChain(config.chainType) == Ok(SolanaChain)
              && fresh(r.value.sol) && r.value.sol.Valid()
              && r.value.sol.base == BaseWallet.BaseFields(config.chainId, Str(BaseWallet.SOLANA), config.rpcUrl)
              && r.value.sol.accepts == env.acceptsKey
              && r.value.sol.Snapshot() == SolanaWallet.View(None, false, config.rpcUrl, SolanaWallet.INITIAL_STATE, [])
    ensures r.Ok? && r.value.Tron? ==>
              && SelectChain(config.chainType) == Ok(TronChain)
              && r.value.tron == TronWallet.New(config.chainId, config.rpcUrl, env.tronWeb)
    ensures r.Ok? && r.value.Evm? ==>
              && SelectChain(config.chainType) == Ok(EvmChain)
              && r.value.evm == EVMWallet.New(config.chainId, config.rpcUrl, env.ethereum)
    ensures SelectChain(config.chainType) == Ok(SolanaChain) ==> r.Ok? && r.value.Solana?
    ensures SelectChain(config.chainType) == Ok(TronChain) ==> r.Ok? && r.value.Tron?
    ensures SelectChain(config.chainType) == Ok(EvmChain) ==> r.Ok? && r.value.Evm?
  {
    var kind := SelectChain(config.chainType);
    match kind {
      case Err(e) =>
        r := Err(e);
      case Ok(SolanaChain) =>
        var wallet := new SolanaWallet.SolanaWallet(config.chainId, config.rpcUrl, env.acceptsKey);
        r := Ok(Solana(wallet));
      case Ok(TronChain) =>
        r := Ok(Tron(TronWallet.New(config.chainId, config.rpcUrl, env.tronWeb)));
      case Ok(EvmChain) =>
        r := Ok(Evm(EVMWallet.New(config.chainId, config.rpcUrl, env.ethereum)));
    }
  }
}

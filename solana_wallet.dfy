/**
 * The Solana adapter (src/wallets/SolanaWallet.js). Signing goes through a host bridge
 * (`this._callAndroid(method, params)`), chain queries through a `Connection` to an RPC endpoint,
 * and the adapter keeps `_publicKey`, `_connected` and a state record written by
 * `this._updateState(partial)`.
 *
 * Each operation is specified by a step function over a `View` of the wallet (its fields plus the
 * requests issued so far) and the replies of the bridge and the endpoint; the class
 * `SolanaWallet` implements every operation as a method and is proved to follow its step.
 */
module SolanaWallet {
  import opened Js
  import BaseWallet

  /** `LAMPORTS_PER_SOL` of the Solana library. */
  const LAMPORTS_PER_SOL := 1_000_000_000

  /** The SPL token program, whose accounts `getTokenAccounts` lists. */
  const TOKEN_PROGRAM_ID := "TokenkegQfeZyiNwAJbNbGKPFXCWuBvf9Ss623VQ5DA"

  const NOT_CONNECTED := Error("Wallet not connected")

  /** Whether the Solana library's `new PublicKey(text)` accepts a text (a base58 encoding of 32
      bytes). Decoding is not part of this model, so the wallet is given the decision. */
  type KeyDecoder = string -> bool

  /** `new PublicKey(value)`: a key is copied, a text is decoded, anything else is refused. */
  function NewPublicKey(accepts: KeyDecoder, v: Value): (r: Result<PublicKey>)
    ensures r.Ok? <==> v.Key? || (v.Str? && accepts(v.s))
    ensures r.Ok? && v.Key? ==> r.value == v.key
    ensures r.Ok? && v.Str? ==> r.value.base58 == v.s
  {
    match v
    case Key(k) => Ok(k)
    case Str(s) => if accepts(s) then Ok(PublicKey(s)) else Err(Error("Invalid public key input"))
    case _ => Err(Error("Invalid public key input"))
  }

  /** `_validatePublicKey`: a text must decode, any other value must be a `PublicKey`; every
      failure is reported alike. */
  function ValidatePublicKey(accepts: KeyDecoder, v: Value): (r: Check)
    ensures r.Pass? <==> v.Key? || (v.Str? && accepts(v.s))
    ensures r.Fail? ==> r.error == Error("Invalid Solana public key")
  {
    var inner :=
      if TypeOf(v) == "string" then
        match NewPublicKey(accepts, v)
        case Ok(_) => Pass
        case Err(e) => Fail(e)
      else if !v.Key? then Fail(Error("Invalid public key"))
      else Pass;
    match inner
    case Pass => Pass
    case Fail(_) => Fail(Error("Invalid Solana public key"))
  }

  /** `_validateMessage` */
  function ValidateMessage(v: Value): (r: Check)
    ensures r.Pass? <==> v.Str? && v.s != ""
    ensures r.Fail? ==> r.error == Error("Message must be a non-empty string")
  {
    if !Truthy(v) || TypeOf(v) != "string" then Fail(Error("Message must be a non-empty string"))
    else Pass
  }

  /** One instruction of a transaction; the adapter only builds `SystemProgram.transfer`. */
  datatype Instruction = Transfer(fromPubkey: Value, toPubkey: Value, lamports: Value)

  /** The fields of a `Transaction` the adapter reads and writes. */
  datatype TxContent = TxContent(recentBlockhash: Value, feePayer: Value, instructions: seq<Instruction>)

  /** A transaction argument as the step functions see it: a `Transaction` with its current
      fields, or some other value. */
  datatype TxInput = TxObject(content: TxContent) | NotTx(other: Value)

  /** `_validateTransaction`: the first missing item decides the error. */
  function ValidateTransaction(t: TxInput): (r: Check)
    ensures r.Pass? <==>
              t.TxObject? && Truthy(t.content.recentBlockhash) && Truthy(t.content.feePayer)
    ensures r.Fail? ==> r.error == Error(
              if t.NotTx? then "Transaction must be an instance of solana.Transaction"
              else if !Truthy(t.content.recentBlockhash) then "Transaction must have a recent blockhash"
              else "Transaction must have a fee payer")
  {
    match t
    case NotTx(_) => Fail(Error("Transaction must be an instance of solana.Transaction"))
    case TxObject(c) =>
      if !Truthy(c.recentBlockhash) then Fail(Error("Transaction must have a recent blockhash"))
      else if !Truthy(c.feePayer) then Fail(Error("Transaction must have a fee payer"))
      else Pass
  }

  /** The record `_updateState` maintains. */
  datatype WalletState = WalletState(connected: bool, accounts: seq<string>, lastError: Option<string>)

  const INITIAL_STATE := WalletState(false, [], None)

  /** The argument of `_updateState`: the fields present in the object literal. */
  datatype StatePatch = StatePatch(
    connected: Option<bool>, accounts: Option<seq<string>>, lastError: Option<Option<string>>)

  /** `_updateState(partial)`: the fields present overwrite, the others stay. */
  function Merge(state: WalletState, patch: StatePatch): (r: WalletState)
    ensures r.connected == (if patch.connected.Some? then patch.connected.value else state.connected)
    ensures r.accounts == (if patch.accounts.Some? then patch.accounts.value else state.accounts)
    ensures r.lastError == (if patch.lastError.Some? then patch.lastError.value else state.lastError)
  {
    WalletState(
      match patch.connected case Some(c) => c case None => state.connected,
      match patch.accounts case Some(a) => a case None => state.accounts,
      match patch.lastError case Some(e) => e case None => state.lastError)
  }

  /** `_updateState({ lastError: error.message })`, the first statement of every `catch`. */
  function ErrorPatch(e: Error): StatePatch {
    StatePatch(None, None, Some(Some(e.message)))
  }

  /** The requests the adapter issues: host-bridge calls and RPC calls on its connection. */
  datatype Request =
    | BridgeConnect
    | BridgeDisconnect
    | BridgeSignMessage(message: string, publicKey: string)
    | BridgeSignTransaction(transaction: TxContent, publicKey: string)
    | BridgeSwitchNetwork(network: string)
    | RpcGetLatestBlockhash(endpoint: Value)
    | RpcSendRawTransaction(endpoint: Value, transaction: TxContent)
    | RpcConfirmTransaction(endpoint: Value, signature: Value)
    | RpcGetBalance(endpoint: Value, owner: Value)
    | RpcGetParsedTokenAccountsByOwner(endpoint: Value, owner: Value, programId: PublicKey)

  /** The wallet as the step functions see it. `endpoint` is the URL its `Connection` was built
      with; `requests` is every request issued so far. */
  datatype View = View(
    publicKey: Option<PublicKey>, connected: bool, endpoint: Value,
    state: WalletState, requests: seq<Request>)

  /** The state record lists the connected account. */
  function AccountsOf(key: Option<PublicKey>): seq<string> {
    match key
    case Some(k) => [k.base58]
    case None => []
  }

  /** The invariant the adapter keeps: `_connected` holds exactly when there is a key, and the
      state record agrees with both. */
  predicate Consistent(v: View) {
    && v.connected == v.publicKey.Some?
    && v.state.connected == v.connected
    && v.state.accounts == AccountsOf(v.publicKey)
  }

  /** In a consistent wallet the state record is connected exactly when it lists an account. */
  lemma ConnectedIffAccounts(v: View)
    requires Consistent(v)
    ensures v.state.connected <==> |v.state.accounts| > 0
    ensures v.state.connected ==> |v.state.accounts| == 1
  {
  }

  /** An operation's effect on the wallet and its outcome. */
  datatype Step<T> = Step(view: View, result: Result<T>)

  function Issue(v: View, r: Request): View {
    v.(requests := v.requests + [r])
  }

  /** The `catch` block: record the message, then rethrow. */
  function Caught<T>(v: View, e: Error): Step<T> {
    Step(v.(state := Merge(v.state, ErrorPatch(e))), Err(e))
  }

  /** What an operation that connects or disconnects nothing may do once past its checks: extend
      the trace, and on failure record the message in `lastError`; nothing else changes. */
  predicate Settled<T>(v: View, s: Step<T>) {
    && |v.requests| <= |s.view.requests| && s.view.requests[..|v.requests|] == v.requests
    && (s.result.Ok? ==> s.view == v.(requests := s.view.requests))
    && (s.result.Err? ==>
          s.view == v.(requests := s.view.requests,
                       state := v.state.(lastError := Some(s.result.error.message))))
  }

  /** `connect()` */
  function ConnectStep(accepts: KeyDecoder, v: View, reply: Result<Value>): (s: Step<PublicKey>)
    ensures Consistent(v) ==> Consistent(s.view)
    ensures s.view.requests == v.requests + [BridgeConnect]
    ensures s.result.Ok? <==>
              && reply.Ok? && Truthy(reply.value) && Truthy(Get(reply.value, "publicKey").value)
              && NewPublicKey(accepts, Get(reply.value, "publicKey").value).Ok?
    ensures s.result.Ok? ==>
              && s.result.value == NewPublicKey(accepts, Get(reply.value, "publicKey").value).value
              && s.view.publicKey == Some(s.result.value) && s.view.connected
              && s.view.endpoint == v.endpoint
              && s.view.state == WalletState(true, [s.result.value.base58], None)
    ensures s.result.Err? ==>
              s.view == Issue(v, BridgeConnect).(state := v.state.(lastError := Some(s.result.error.message)))
    ensures reply.Err? ==> s.result == Err(reply.error)
    ensures reply.Ok? && (!Truthy(reply.value) || !Truthy(Get(reply.value, "publicKey").value)) ==>
              s.result == Err(Error("Invalid connect response"))
    ensures reply.Ok? && Truthy(reply.value) && Truthy(Get(reply.value, "publicKey").value)
            && NewPublicKey(accepts, Get(reply.value, "publicKey").value).Err? ==>
              s.result == Err(Error("Invalid public key input"))
  {
    var v1 := Issue(v, BridgeConnect);
    match reply
    case Err(e) => Caught(v1, e)
    case Ok(result) =>
      if !Truthy(result) || !Truthy(Get(result, "publicKey").value) then
        Caught(v1, Error("Invalid connect response"))
      else
        match NewPublicKey(accepts, Get(result, "publicKey").value)
        case Err(e) => Caught(v1, e)
        case Ok(key) =>
          match ValidatePublicKey(accepts, Key(key))
          case Fail(e) => Caught(v1, e)
          case Pass =>
            var patch := StatePatch(Some(true), Some([key.base58]), Some(None));
            Step(v1.(publicKey := Some(key), connected := true, state := Merge(v1.state, patch)), Ok(key))
  }

  /** The `catch` block as published: `_updateState` is not defined, so calling it throws a
      TypeError that replaces the error being handled, and nothing is recorded. */
  function CaughtAsPublished<T>(v: View, e: Error): (s: Step<T>)
    ensures s.view == v && s.result.Err? && s.result.error.TypeError?
  {
    Step(v, Err(TypeError("this._updateState is not a function")))
  }

  /** `connect()` as published: `_callAndroid` is not defined either, so the bridge call throws
      before any request leaves, and the `catch` block throws in turn. */
  function ConnectAsPublished(v: View): (s: Step<PublicKey>)
    ensures s.view == v && s.result.Err?
  {
    CaughtAsPublished(v, TypeError("this._callAndroid is not a function"))
  }

  /** As published, a wallet that is not connected never becomes connected. */
  lemma PublishedConnectNeverConnects(v: View)
    requires Consistent(v) && !v.connected
    ensures !ConnectAsPublished(v).view.connected && ConnectAsPublished(v).view.publicKey.None?
    ensures ConnectAsPublished(v).result == Err(TypeError("this._updateState is not a function"))
  {
  }

  /** With the bridge and the state update in place, a bridge answer carrying a key the library
      accepts connects the wallet to that key. */
  lemma ConnectAcceptsKey(accepts: KeyDecoder, v: View, key: string)
    requires accepts(key) && key != ""
    ensures var s := ConnectStep(accepts, v, Ok(Obj(map["publicKey" := Str(key)])));
            s.result == Ok(PublicKey(key)) && s.view.connected && s.view.state.accounts == [key]
  {
    var answer := Obj(map["publicKey" := Str(key)]);
    assert Get(answer, "publicKey") == Ok(Str(key));
  }

  /** `disconnect()` */
  function DisconnectStep(v: View, reply: Result<Value>): (s: Step<Value>)
    ensures Consistent(v) ==> Consistent(s.view)
    ensures s.view.requests == v.requests + [BridgeDisconnect]
    ensures s.result.Ok? <==> reply.Ok?
    ensures s.result.Ok? ==>
              && s.result.value == Undefined && s.view.publicKey.None? && !s.view.connected
              && s.view.endpoint == v.endpoint && s.view.state == INITIAL_STATE
    ensures s.result.Err? ==>
              s.result == reply
              && s.view == Issue(v, BridgeDisconnect).(state := v.state.(lastError := Some(s.result.error.message)))
  {
    var v1 := Issue(v, BridgeDisconnect);
    match reply
    case Err(e) => Caught(v1, e)
    case Ok(_) =>
      var patch := StatePatch(Some(false), Some([]), Some(None));
      Step(v1.(publicKey := None, connected := false, state := Merge(v1.state, patch)), Ok(Undefined))
  }

  /** The `publicKey` getter: the key, or null. */
  function PublicKeyOf(v: View): (r: Value)
    ensures Consistent(v) ==> (r == Null <==> !v.connected)
    ensures r != Null ==> r.Key? && v.publicKey == Some(r.key)
  {
    match v.publicKey
    case Some(k) => Key(k)
    case None => Null
  }

  /** What `signMessage` resolves to. The signature is kept as the text the bridge returned; the
      base64 decoding into a Buffer is not part of this model. */
  datatype SignedMessage = SignedMessage(signature: Value, publicKey: PublicKey)

  /** `signMessage(message)` */
  function SignMessageStep(v: View, message: Value, reply: Result<Value>): (s: Step<SignedMessage>)
    ensures v.publicKey.None? ==> s == Step(v, Err(NOT_CONNECTED))
    ensures v.publicKey.Some? && ValidateMessage(message).Fail? ==>
              s == Step(v, Err(ValidateMessage(message).error))
    ensures v.publicKey.Some? && ValidateMessage(message).Pass? ==>
              && Settled(v, s)
              && s.view.requests == v.requests + [BridgeSignMessage(message.s, v.publicKey.value.base58)]
    ensures s.result.Ok? ==>
              && reply.Ok? && Truthy(reply.value)
              && s.result.value == SignedMessage(Get(reply.value, "signature").value, v.publicKey.value)
              && Truthy(s.result.value.signature)
    ensures v.publicKey.Some? && ValidateMessage(message).Pass? ==>
              && (s.result.Ok? <==> reply.Ok? && Truthy(reply.value) && Truthy(Get(reply.value, "signature").value))
              && (reply.Err? ==> s.result == Err(reply.error))
  {
    match v.publicKey
    case None => Step(v, Err(NOT_CONNECTED))
    case Some(key) =>
      match ValidateMessage(message)
      case Fail(e) => Step(v, Err(e))
      case Pass =>
        var v1 := Issue(v, BridgeSignMessage(message.s, key.base58));
        match reply
        case Err(e) => Caught(v1, e)
        case Ok(result) =>
          if !Truthy(result) || !Truthy(Get(result, "signature").value) then
            Caught(v1, Error("Invalid signature response"))
          else Step(v1, Ok(SignedMessage(Get(result, "signature").value, key)))
  }

  /** The replies `signTransaction` may need: the latest blockhash, whether serializing the
      transaction succeeds, the bridge's signed transaction, and the transaction decoded from it. */
  datatype SignReplies = SignReplies(
    latestBlockhash: Result<Value>, serialize: Check, signed: Result<Value>, decoded: Result<TxContent>)

  /** `signTransaction(transaction)`. The blockhash and fee-payer defaults (lines 123-129) are
      kept, and are never taken: validation has already required both fields. */
  function SignTransactionStep(v: View, t: TxInput, replies: SignReplies): (s: Step<TxContent>)
    ensures v.publicKey.None? ==> s == Step(v, Err(NOT_CONNECTED))
    ensures v.publicKey.Some? && ValidateTransaction(t).Fail? ==>
              s == Step(v, Err(ValidateTransaction(t).error))
    ensures v.publicKey.Some? && ValidateTransaction(t).Pass? ==>
              && Settled(v, s)
              && s.view.requests in
                   {v.requests, v.requests + [BridgeSignTransaction(t.content, v.publicKey.value.base58)]}
    ensures s.result.Ok? ==>
              && s.view.requests == v.requests + [BridgeSignTransaction(t.content, v.publicKey.value.base58)]
              && replies.signed.Ok? && Truthy(replies.signed.value) && s.result == replies.decoded
    ensures v.publicKey.Some? && ValidateTransaction(t).Pass? ==>
              && (s.result.Ok? <==>
                    replies.serialize.Pass? && replies.signed.Ok? && Truthy(replies.signed.value)
                    && replies.decoded.Ok?)
              && (replies.serialize.Fail? ==> s == Caught(v, replies.serialize.error))
              && (replies.serialize.Pass? && replies.signed.Err? ==> s.result == Err(replies.signed.error))
  {
    match v.publicKey
    case None => Step(v, Err(NOT_CONNECTED))
    case Some(key) =>
      match ValidateTransaction(t)
      case Fail(e) => Step(v, Err(e))
      case Pass =>
        var c := t.content;
        var fetched: Step<TxContent> :=
          if Truthy(c.recentBlockhash) then Step(v, Ok(c))
          else
            var v1 := Issue(v, RpcGetLatestBlockhash(v.endpoint));
            match replies.latestBlockhash
            case Err(e) => Caught(v1, e)
            case Ok(response) =>
              match Get(response, "blockhash")
              case Err(e) => Caught(v1, e)
              case Ok(h) => Step(v1, Ok(c.(recentBlockhash := h)));
        match fetched.result
        case Err(_) => fetched
        case Ok(c1) =>
          var c2 := if Truthy(c1.feePayer) then c1 else c1.(feePayer := Key(key));
          match replies.serialize
          case Fail(e) => Caught(fetched.view, e)
          case Pass =>
            var v2 := Issue(fetched.view, BridgeSignTransaction(c2, key.base58));
            match replies.signed
            case Err(e) => Caught(v2, e)
            case Ok(signedTx) =>
              if !Truthy(signedTx) then Caught(v2, Error("Invalid signed transaction response"))
              else
                match replies.decoded
                case Err(e) => Caught(v2, e)
                case Ok(d) => Step(v2, Ok(d))
  }

  /** What `signAndSendTransaction` resolves to. */
  datatype Sent = Sent(signature: Value, publicKey: PublicKey, confirmation: Value)

  /** The replies `signAndSendTransaction` may need beyond those of `signTransaction`: whether
      serializing the signed transaction succeeds, the signature `sendRawTransaction` returns and
      the response of `confirmTransaction`. */
  datatype SendReplies = SendReplies(
    sign: SignReplies, serializeSigned: Check, sent: Result<Value>, confirmed: Result<Value>)

  /** `confirmation.value.err`, and the failure it turns into. */
  function ConfirmationOutcome(confirmation: Value): (r: Check)
    ensures r.Pass? <==> Get(confirmation, "value").Ok? && Get(Get(confirmation, "value").value, "err").Ok?
                         && !Truthy(Get(Get(confirmation, "value").value, "err").value)
  {
    match Get(confirmation, "value")
    case Err(e) => Fail(e)
    case Ok(value) =>
      match Get(value, "err")
      case Err(e) => Fail(e)
      case Ok(err) => if Truthy(err) then Fail(Error("Transaction failed: " + ToText(err))) else Pass
  }

  /** `signAndSendTransaction(transaction)` */
  function SignAndSendStep(v: View, t: TxInput, replies: SendReplies): (s: Step<Sent>)
    ensures v.publicKey.None? ==> s == Step(v, Err(NOT_CONNECTED))
    ensures v.publicKey.Some? && ValidateTransaction(t).Fail? ==>
              s == Step(v, Err(ValidateTransaction(t).error))
    ensures v.publicKey.Some? && ValidateTransaction(t).Pass? ==> Settled(v, s)
    ensures s.result.Ok? ==>
              var signed := SignTransactionStep(v, t, replies.sign);
              && signed.result.Ok? && replies.sent.Ok?
              && s.view.requests == signed.view.requests
                   + [RpcSendRawTransaction(v.endpoint, signed.result.value),
                      RpcConfirmTransaction(v.endpoint, replies.sent.value)]
              && replies.confirmed.Ok?
              && s.result.value == Sent(replies.sent.value, v.publicKey.value, replies.confirmed.value)
              && ConfirmationOutcome(replies.confirmed.value).Pass?
    ensures v.publicKey.Some? && ValidateTransaction(t).Pass? ==>
              (s.result.Ok? <==>
                 && SignTransactionStep(v, t, replies.sign).result.Ok? && replies.serializeSigned.Pass?
                 && replies.sent.Ok? && replies.confirmed.Ok?
                 && ConfirmationOutcome(replies.confirmed.value).Pass?)
    ensures SignTransactionStep(v, t, replies.sign).result.Ok? && replies.serializeSigned.Pass?
            && replies.sent.Ok? && replies.confirmed.Ok?
            && ConfirmationOutcome(replies.confirmed.value).Fail? ==>
              && s.result == Err(ConfirmationOutcome(replies.confirmed.value).error)
              && RpcSendRawTransaction(v.endpoint, SignTransactionStep(v, t, replies.sign).result.value)
                   in s.view.requests
    ensures SignTransactionStep(v, t, replies.sign).result.Ok? && replies.serializeSigned.Pass?
            && replies.sent.Err? ==>
              var signed := SignTransactionStep(v, t, replies.sign);
              && s.result == Err(replies.sent.error)
              && s.view.requests == signed.view.requests + [RpcSendRawTransaction(v.endpoint, signed.result.value)]
    ensures SignTransactionStep(v, t, replies.sign).result.Ok? && replies.serializeSigned.Pass?
            && replies.sent.Ok? && replies.confirmed.Err? ==>
              var signed := SignTransactionStep(v, t, replies.sign);
              && s.result == Err(replies.confirmed.error)
              && s.view.requests == signed.view.requests + [RpcSendRawTransaction(v.endpoint, signed.result.value),
                                                            RpcConfirmTransaction(v.endpoint, replies.sent.value)]
    ensures v.publicKey.Some? && ValidateTransaction(t).Pass? && SignTransactionStep(v, t, replies.sign).result.Err? ==>
              s.result == Err(SignTransactionStep(v, t, replies.sign).result.error)
  {
    match v.publicKey
    case None => Step(v, Err(NOT_CONNECTED))
    case Some(key) =>
      match ValidateTransaction(t)
      case Fail(e) => Step(v, Err(e))
      case Pass =>
        var signed := SignTransactionStep(v, t, replies.sign);
        match signed.result
        case Err(e) => Caught(signed.view, e)
        case Ok(signedTx) =>
          match replies.serializeSigned
          case Fail(e) => Caught(signed.view, e)
          case Pass =>
            var v1 := Issue(signed.view, RpcSendRawTransaction(v.endpoint, signedTx));
            match replies.sent
            case Err(e) => Caught(v1, e)
            case Ok(signature) =>
              var v2 := Issue(v1, RpcConfirmTransaction(v.endpoint, signature));
              match replies.confirmed
              case Err(e) => Caught(v2, e)
              case Ok(confirmation) =>
                match ConfirmationOutcome(confirmation)
                case Fail(e) => Caught(v2, e)
                case Pass => Step(v2, Ok(Sent(signature, key, confirmation)))
  }

  /** A default parameter `publicKey = this._publicKey`: it applies only when the argument is
      undefined (omitted). */
  function KeyOrStored(v: View, publicKey: Value): (r: Value)
    ensures publicKey != Undefined ==> r == publicKey
    ensures publicKey == Undefined ==> r == PublicKeyOf(v)
  {
    if publicKey == Undefined then PublicKeyOf(v) else publicKey
  }

  /** `getBalance(publicKey = this._publicKey)`: the balance in lamports, in units of 10^9. */
  function GetBalanceStep(accepts: KeyDecoder, v: View, publicKey: Value, reply: Result<Value>)
    : (s: Step<BaseWallet.Amount>)
    ensures !Truthy(KeyOrStored(v, publicKey)) ==> s == Step(v, Err(Error("Public key is required")))
    ensures Truthy(KeyOrStored(v, publicKey)) && ValidatePublicKey(accepts, KeyOrStored(v, publicKey)).Fail? ==>
              s == Step(v, Err(Error("Invalid Solana public key")))
    ensures Truthy(KeyOrStored(v, publicKey)) && ValidatePublicKey(accepts, KeyOrStored(v, publicKey)).Pass? ==>
              && Settled(v, s)
              && s.view.requests == v.requests + [RpcGetBalance(v.endpoint, KeyOrStored(v, publicKey))]
    ensures s.result.Ok? ==> reply.Ok? && s.result.value == BaseWallet.Amount(reply.value, 9)
    ensures Truthy(KeyOrStored(v, publicKey)) && ValidatePublicKey(accepts, KeyOrStored(v, publicKey)).Pass? ==>
              && (reply.Ok? ==> s.result == Ok(BaseWallet.Amount(reply.value, 9)))
              && (reply.Err? ==> s.result == Err(reply.error))
  {
    var owner := KeyOrStored(v, publicKey);
    if !Truthy(owner) then Step(v, Err(Error("Public key is required")))
    else
      match ValidatePublicKey(accepts, owner)
      case Fail(e) => Step(v, Err(e))
      case Pass =>
        var v1 := Issue(v, RpcGetBalance(v.endpoint, owner));
        match reply
        case Err(e) => Caught(v1, e)
        case Ok(lamports) => Step(v1, Ok(BaseWallet.Amount(lamports, 9)))
  }

  /** A parsed token account, as far as the adapter reads it: `account.data.parsed.info.mint`
      and `account.data.parsed.info.tokenAmount.uiAmount`. */
  datatype TokenAccount = TokenAccount(mint: string, uiAmount: Value)

  /** `getTokenAccounts(publicKey = this._publicKey)`; the reply is the `value` of the RPC
      response. */
  function GetTokenAccountsStep(accepts: KeyDecoder, v: View, publicKey: Value,
                                reply: Result<seq<TokenAccount>>): (s: Step<seq<TokenAccount>>)
    ensures !Truthy(KeyOrStored(v, publicKey)) ==> s == Step(v, Err(Error("Public key is required")))
    ensures Truthy(KeyOrStored(v, publicKey)) && ValidatePublicKey(accepts, KeyOrStored(v, publicKey)).Fail? ==>
              s == Step(v, Err(Error("Invalid Solana public key")))
    ensures Truthy(KeyOrStored(v, publicKey)) && ValidatePublicKey(accepts, KeyOrStored(v, publicKey)).Pass? ==>
              && Settled(v, s)
              && (accepts(TOKEN_PROGRAM_ID) ==>
                    s.view.requests == v.requests + [RpcGetParsedTokenAccountsByOwner(
                      v.endpoint, KeyOrStored(v, publicKey), PublicKey(TOKEN_PROGRAM_ID))])
    ensures s.result.Ok? ==> s.result == reply
    ensures Truthy(KeyOrStored(v, publicKey)) && ValidatePublicKey(accepts, KeyOrStored(v, publicKey)).Pass?
            && accepts(TOKEN_PROGRAM_ID) ==>
              s.result == reply
  {
    var owner := KeyOrStored(v, publicKey);
    if !Truthy(owner) then Step(v, Err(Error("Public key is required")))
    else
      match ValidatePublicKey(accepts, owner)
      case Fail(e) => Step(v, Err(e))
      case Pass =>
        match NewPublicKey(accepts, Str(TOKEN_PROGRAM_ID))
        case Err(e) => Caught(v, e)
        case Ok(programId) =>
          var v1 := Issue(v, RpcGetParsedTokenAccountsByOwner(v.endpoint, owner, programId));
          match reply
          case Err(e) => Caught(v1, e)
          case Ok(accounts) => Step(v1, Ok(accounts))
  }

  /** `accounts.find(a => a.mint === mint)`: the index of the first account of the mint. */
  function FindByMint(accounts: seq<TokenAccount>, mint: string): (r: Option<nat>)
    ensures r.Some? ==>
              && r.value < |accounts| && accounts[r.value].mint == mint
              && forall j :: 0 <= j < r.value ==> accounts[j].mint != mint
    ensures r.None? ==> forall j :: 0 <= j < |accounts| ==> accounts[j].mint != mint
  {
    if accounts == [] then None
    else if accounts[0].mint == mint then Some(0)
    else
      match FindByMint(accounts[1..], mint)
      case Some(i) => Some(i + 1)
      case None => None
  }

  /** The balance `getTokenBalance` reports for a list of accounts: the first match's
      `uiAmount`, or 0. */
  function TokenBalanceIn(accounts: seq<TokenAccount>, mint: string): (r: Value)
    ensures (exists i :: 0 <= i < |accounts| && accounts[i].mint == mint) ==>
              (exists i :: 0 <= i < |accounts| && accounts[i].mint == mint && r == accounts[i].uiAmount
                            && forall j :: 0 <= j < i ==> accounts[j].mint != mint)
    ensures (forall i :: 0 <= i < |accounts| ==> accounts[i].mint != mint) ==> r == Num(0)
  {
    match FindByMint(accounts, mint)
    case Some(i) => accounts[i].uiAmount
    case None => Num(0)
  }

  /** Accounts of other mints placed before the match do not change the balance. */
  lemma {:induction false} TokenBalanceSkipsOthers(others: seq<TokenAccount>, rest: seq<TokenAccount>, mint: string)
    requires forall i :: 0 <= i < |others| ==> others[i].mint != mint
    ensures TokenBalanceIn(others + rest, mint) == TokenBalanceIn(rest, mint)
    decreases |others|
  {
    if others == [] {
      assert others + rest == rest;
    } else {
      var tail := others[1..] + rest;
      assert (others + rest)[1..] == tail;
      assert (others + rest)[0].mint != mint;
      TokenBalanceSkipsOthers(others[1..], rest, mint);
      match FindByMint(tail, mint)
      case Some(i) =>
        assert FindByMint(others + rest, mint) == Some(i + 1);
        assert (others + rest)[i + 1] == tail[i];
      case None =>
        assert FindByMint(others + rest, mint) == None;
    }
  }

  /** `getTokenBalance(mint, publicKey = this._publicKey)` */
  function GetTokenBalanceStep(accepts: KeyDecoder, v: View, mint: Value, publicKey: Value,
                               reply: Result<seq<TokenAccount>>): (s: Step<Value>)
    ensures !Truthy(KeyOrStored(v, publicKey)) ==> s == Step(v, Err(Error("Public key is required")))
    ensures Truthy(KeyOrStored(v, publicKey)) && !Truthy(mint) ==>
              s == Step(v, Err(Error("Token mint address is required")))
    ensures Truthy(KeyOrStored(v, publicKey)) && Truthy(mint)
            && (ValidatePublicKey(accepts, KeyOrStored(v, publicKey)).Fail? || ValidatePublicKey(accepts, mint).Fail?) ==>
              s == Step(v, Err(Error("Invalid Solana public key")))
    ensures Truthy(KeyOrStored(v, publicKey)) && Truthy(mint)
            && ValidatePublicKey(accepts, KeyOrStored(v, publicKey)).Pass? && ValidatePublicKey(accepts, mint).Pass? ==>
              Settled(v, s)
    ensures s.result.Ok? ==> reply.Ok? && s.result.value == TokenBalanceIn(reply.value, ToText(mint))
    ensures Truthy(KeyOrStored(v, publicKey)) && Truthy(mint)
            && ValidatePublicKey(accepts, KeyOrStored(v, publicKey)).Pass? && ValidatePublicKey(accepts, mint).Pass?
            && accepts(TOKEN_PROGRAM_ID) ==>
              && s.view.requests == v.requests + [RpcGetParsedTokenAccountsByOwner(
                   v.endpoint, KeyOrStored(v, publicKey), PublicKey(TOKEN_PROGRAM_ID))]
              && (reply.Ok? ==> s.result == Ok(TokenBalanceIn(reply.value, ToText(mint))))
              && (reply.Err? ==> s.result == Err(reply.error))
  {
    var owner := KeyOrStored(v, publicKey);
    if !Truthy(owner) then Step(v, Err(Error("Public key is required")))
    else if !Truthy(mint) then Step(v, Err(Error("Token mint address is required")))
    else
      match ValidatePublicKey(accepts, owner)
      case Fail(e) => Step(v, Err(e))
      case Pass =>
        match ValidatePublicKey(accepts, mint)
        case Fail(e) => Step(v, Err(e))
        case Pass =>
          var listed := GetTokenAccountsStep(accepts, v, owner, reply);
          match listed.result
          case Err(e) => Caught(listed.view, e)
          case Ok(accounts) => Step(listed.view, Ok(TokenBalanceIn(accounts, ToText(mint))))
  }

  /** `switchNetwork(network)` */
  function SwitchNetworkStep(v: View, network: Value, reply: Result<Value>): (s: Step<Value>)
    ensures Consistent(v) ==> Consistent(s.view)
    ensures !(network.Str? && network.s != "") ==> s == Step(v, Err(Error("Invalid network parameter")))
    ensures network.Str? && network.s != "" ==>
              && s.view.requests == v.requests + [BridgeSwitchNetwork(network.s)]
              && s.view.publicKey == v.publicKey && s.view.connected == v.connected
              && s.view.state.connected == v.state.connected && s.view.state.accounts == v.state.accounts
              && (s.result.Ok? <==> reply.Ok?)
              && (s.result.Ok? ==> s.view.endpoint == network && s.view.state.lastError.None?)
              && (s.result.Err? ==> s.view.endpoint == v.endpoint
                                    && s.view.state.lastError == Some(s.result.error.message))
              && (reply.Err? ==> s.result == Err(reply.error))
  {
    if !Truthy(network) || TypeOf(network) != "string" then Step(v, Err(Error("Invalid network parameter")))
    else
      var v1 := Issue(v, BridgeSwitchNetwork(network.s));
      match reply
      case Err(e) => Caught(v1, e)
      case Ok(_) =>
        Step(v1.(endpoint := network, state := Merge(v1.state, StatePatch(None, None, Some(None)))), Ok(Undefined))
  }

  /** The amount check of `createTransferTransaction` as written:
      `typeof amount !== 'number' || amount <= 0` rejects. NaN is a number and is not `<= 0`. */
  predicate TransferAmountAcceptedAsWritten(amount: Value) {
    !(TypeOf(amount) != "number" || (amount.Num? && amount.n <= 0))
  }

  /** NaN passes the check as written. */
  lemma NaNAmountAccepted()
    ensures TransferAmountAcceptedAsWritten(NaN)
  {
  }

  /** The amount check as evidently intended: only a positive number passes. */
  predicate TransferAmountAccepted(amount: Value) {
    amount.Num? && amount.n > 0
  }

  /** The intended check is the written one with NaN excluded. */
  lemma TransferAmountCheckCorrected(amount: Value)
    ensures TransferAmountAccepted(amount) <==> TransferAmountAcceptedAsWritten(amount) && amount != NaN
  {
  }

  /** `amount * LAMPORTS_PER_SOL` for an amount that passed the check as written: a positive
      integral amount of SOL, or NaN, which the multiplication keeps. */
  function Lamports(amount: Value): (r: Value)
    requires TransferAmountAcceptedAsWritten(amount)
    ensures r.NaN? <==> amount.NaN?
    ensures amount.Num? ==>
              && r.Num? && r.n >= LAMPORTS_PER_SOL
              && r.n % LAMPORTS_PER_SOL == 0 && r.n / LAMPORTS_PER_SOL == amount.n
  {
    if amount.NaN? then NaN else Num(amount.n * LAMPORTS_PER_SOL)
  }

  /** The lamports of a transfer denote exactly the amount of SOL asked for. */
  lemma LamportsDenoteAmount(amount: Value)
    requires TransferAmountAccepted(amount)
    ensures BaseWallet.Denoted(BaseWallet.Amount(Lamports(amount), 9)) == amount.n as real
  {
    assert Numbers.Pow10(9) == LAMPORTS_PER_SOL;
  }

  /** `createTransferTransaction(toPublicKey, amount, fromPublicKey = this._publicKey)`: the
      content of the new transaction. The amount check is the one written at line 245. */
  function CreateTransferStep(accepts: KeyDecoder, v: View, to: Value, amount: Value, from: Value,
                              latestBlockhash: Result<Value>): (s: Step<TxContent>)
    ensures !Truthy(KeyOrStored(v, from)) ==> s == Step(v, Err(Error("Sender public key is required")))
    ensures Truthy(KeyOrStored(v, from)) && !Truthy(to) ==>
              s == Step(v, Err(Error("Recipient public key is required")))
    ensures Truthy(KeyOrStored(v, from)) && Truthy(to) && !TransferAmountAcceptedAsWritten(amount) ==>
              s == Step(v, Err(Error("Invalid transfer amount")))
    ensures Truthy(KeyOrStored(v, from)) && Truthy(to) && TransferAmountAcceptedAsWritten(amount)
            && (ValidatePublicKey(accepts, KeyOrStored(v, from)).Fail? || ValidatePublicKey(accepts, to).Fail?) ==>
              s == Step(v, Err(Error("Invalid Solana public key")))
    ensures Truthy(KeyOrStored(v, from)) && Truthy(to) && TransferAmountAcceptedAsWritten(amount)
            && ValidatePublicKey(accepts, KeyOrStored(v, from)).Pass? && ValidatePublicKey(accepts, to).Pass? ==>
              && Settled(v, s)
              && s.view.requests == v.requests + [RpcGetLatestBlockhash(v.endpoint)]
              && (s.result.Ok? <==> latestBlockhash.Ok? && Get(latestBlockhash.value, "blockhash").Ok?)
              && (latestBlockhash.Err? ==> s.result == Err(latestBlockhash.error))
              && (latestBlockhash.Ok? && Get(latestBlockhash.value, "blockhash").Err? ==>
                    s.result == Err(Get(latestBlockhash.value, "blockhash").error))
              && (s.result.Ok? ==>
                    s.result.value == TxContent(Get(latestBlockhash.value, "blockhash").value, KeyOrStored(v, from),
                                                [Transfer(KeyOrStored(v, from), to, Lamports(amount))]))
    ensures s.result.Ok? ==>
              && TransferAmountAcceptedAsWritten(amount)
              && ValidatePublicKey(accepts, KeyOrStored(v, from)).Pass? && ValidatePublicKey(accepts, to).Pass?
  {
    var sender := KeyOrStored(v, from);
    if !Truthy(sender) then Step(v, Err(Error("Sender public key is required")))
    else if !Truthy(to) then Step(v, Err(Error("Recipient public key is required")))
    else if !TransferAmountAcceptedAsWritten(amount) then Step(v, Err(Error("Invalid transfer amount")))
    else
      match ValidatePublicKey(accepts, sender)
      case Fail(e) => Step(v, Err(e))
      case Pass =>
        match ValidatePublicKey(accepts, to)
        case Fail(e) => Step(v, Err(e))
        case Pass =>
          var v1 := Issue(v, RpcGetLatestBlockhash(v.endpoint));
          match latestBlockhash
          case Err(e) => Caught(v1, e)
          case Ok(response) =>
            match Get(response, "blockhash")
            case Err(e) => Caught(v1, e)
            case Ok(blockhash) =>
              Step(v1, Ok(TxContent(blockhash, sender, [Transfer(sender, to, Lamports(amount))])))
  }

  /** As written, NaN gets past the amount check: the keys are validated, a blockhash is fetched
      and a transfer of NaN lamports is built. */
  lemma NaNTransferBuilt(accepts: KeyDecoder, v: View, to: Value, from: Value, blockhash: Value)
    requires Truthy(KeyOrStored(v, from)) && Truthy(to)
    requires ValidatePublicKey(accepts, KeyOrStored(v, from)).Pass? && ValidatePublicKey(accepts, to).Pass?
    ensures var s := CreateTransferStep(accepts, v, to, NaN, from, Ok(Obj(map["blockhash" := blockhash])));
            && s.result.Ok? && s.result.value.instructions[0].lamports == NaN
            && s.view.requests == v.requests + [RpcGetLatestBlockhash(v.endpoint)]
  {
    NaNAmountAccepted();
    assert Get(Obj(map["blockhash" := blockhash]), "blockhash") == Ok(blockhash);
  }

  /** `createTransferTransaction` with the amount check as evidently intended: NaN is refused
      with the other non-positive amounts, before any request. */
  function CreateTransferStepCorrected(accepts: KeyDecoder, v: View, to: Value, amount: Value, from: Value,
                                       latestBlockhash: Result<Value>): (s: Step<TxContent>)
    ensures amount != NaN ==> s == CreateTransferStep(accepts, v, to, amount, from, latestBlockhash)
    ensures Truthy(KeyOrStored(v, from)) && Truthy(to) && !TransferAmountAccepted(amount) ==>
              s == Step(v, Err(Error("Invalid transfer amount")))
    ensures s.result.Ok? ==>
              && TransferAmountAccepted(amount)
              && s.result.value.instructions[0].lamports.Num?
              && s.result.value.instructions[0].lamports.n / LAMPORTS_PER_SOL == amount.n
  {
    TransferAmountCheckCorrected(amount);
    if amount == NaN && Truthy(KeyOrStored(v, from)) && Truthy(to) then
      Step(v, Err(Error("Invalid transfer amount")))
    else CreateTransferStep(accepts, v, to, amount, from, latestBlockhash)
  }

  /** Once past its checks, a created transfer whose blockhash is set passes transaction
      validation, so it can be handed to `signTransaction` as it is. */
  lemma CreatedTransferIsSignable(accepts: KeyDecoder, v: View, to: Value, amount: Value, from: Value,
                                  latestBlockhash: Result<Value>)
    requires CreateTransferStep(accepts, v, to, amount, from, latestBlockhash).result.Ok?
    requires Truthy(Get(latestBlockhash.value, "blockhash").value)
    ensures ValidateTransaction(TxObject(CreateTransferStep(accepts, v, to, amount, from, latestBlockhash).result.value)).Pass?
  {
  }

  /** A successful disconnect after a successful connect leaves the wallet as constructed, apart
      from the endpoint and the trace. */
  lemma DisconnectUndoesConnect(accepts: KeyDecoder, v: View, connectReply: Result<Value>,
                                disconnectReply: Result<Value>)
    requires ConnectStep(accepts, v, connectReply).result.Ok? && disconnectReply.Ok?
    ensures var w := DisconnectStep(ConnectStep(accepts, v, connectReply).view, disconnectReply).view;
            w.publicKey.None? && !w.connected && w.state == INITIAL_STATE && w.endpoint == v.endpoint
            && w.requests == v.requests + [BridgeConnect, BridgeDisconnect]
  {
  }

  /** A `Transaction` object of the Solana library, reduced to the fields the adapter uses. */
  class Transaction {
    var recentBlockhash: Value
    var feePayer: Value
    var instructions: seq<Instruction>

    function Content(): TxContent
      reads this
    {
      TxContent(recentBlockhash, feePayer, instructions)
    }

    /** `new Transaction()` */
    constructor ()
      ensures Content() == TxContent(Undefined, Undefined, [])
    {
      recentBlockhash := Undefined;
      feePayer := Undefined;
      instructions := [];
    }

    /** `Transaction.from(bytes)`, given the content the bytes decode to. */
    constructor Decoded(c: TxContent)
      ensures Content() == c
    {
      recentBlockhash := c.recentBlockhash;
      feePayer := c.feePayer;
      instructions := c.instructions;
    }

    /** `transaction.add(instruction)` */
    method Add(i: Instruction)
      modifies this
      ensures Content() == old(Content()).(instructions := old(instructions) + [i])
    {
      instructions := instructions + [i];
    }
  }

  /** The argument a caller passes as `transaction`. */
  datatype TxArg = Tx(tx: Transaction) | NotTransaction(other: Value)

  /** The argument as the step functions see it. */
  function Input(t: TxArg): TxInput
    reads if t.Tx? then {t.tx} else {}
  {
    match t
    case Tx(tx) => TxObject(tx.Content())
    case NotTransaction(other) => NotTx(other)
  }

  /** The transaction object a method returned matches the outcome of its step. */
  predicate Delivered(r: Result<Transaction>, outcome: Result<TxContent>)
    reads if r.Ok? then {r.value} else {}
  {
    && (r.Ok? <==> outcome.Ok?)
    && (r.Ok? ==> r.value.Content() == outcome.value)
    && (r.Err? ==> r.error == outcome.error)
  }

  /** A SolanaWallet instance. */
  class SolanaWallet {
    const base: BaseWallet.BaseFields
    /** The decision `new PublicKey(text)` makes. */
    const accepts: KeyDecoder
    /** `_publicKey` */
    var publicKey: Option<PublicKey>
    /** `_connected` */
    var connected: bool
    /** The endpoint `_connection` was built with. */
    var endpoint: Value
    /** The record `_updateState` writes. */
    var state: WalletState
    /** Every bridge and RPC request issued so far. */
    var requests: seq<Request>

    function Snapshot(): View
      reads this
    {
      View(publicKey, connected, endpoint, state, requests)
    }

    predicate Valid()
      reads this
    {
      Consistent(Snapshot())
    }

    /** `new SolanaWallet({chainId, rpcUrl})` */
    constructor (chainId: Value, rpcUrl: Value, accepts: KeyDecoder)
      ensures Valid()
      ensures base == BaseWallet.BaseFields(chainId, Str(BaseWallet.SOLANA), rpcUrl)
      ensures this.accepts == accepts
      ensures Snapshot() == View(None, false, rpcUrl, INITIAL_STATE, [])
    {
      BaseWallet.AdapterTagStored(chainId, BaseWallet.SOLANA, rpcUrl);
      base := BaseWallet.Construct(BaseWallet.Config(chainId, Str(BaseWallet.SOLANA), rpcUrl)).value;
      this.accepts := accepts;
      endpoint := rpcUrl;
      publicKey := None;
      connected := false;
      state := INITIAL_STATE;
      requests := [];
    }

    /** The `publicKey` getter. */
    function PublicKeyValue(): (r: Value)
      reads this
      ensures r == PublicKeyOf(Snapshot())
    {
      match publicKey
      case Some(k) => Key(k)
      case None => Null
    }

    /** The `isConnected` getter. */
    function IsConnected(): (r: bool)
      reads this
      ensures Valid() ==> (r <==> PublicKeyValue() != Null)
    {
      connected
    }

    /** `connect()` */
    method Connect(reply: Result<Value>) returns (r: Result<PublicKey>)
      requires Valid()
      modifies this
      ensures Valid()
      ensures Step(Snapshot(), r) == ConnectStep(accepts, old(Snapshot()), reply)
    {
      requests := requests + [BridgeConnect];
      if reply.Err? {
        state := Merge(state, ErrorPatch(reply.error));
        return Err(reply.error);
      }
      var result := reply.value;
      if !Truthy(result) || !Truthy(Get(result, "publicKey").value) {
        var e := Error("Invalid connect response");
        state := Merge(state, ErrorPatch(e));
        return Err(e);
      }
      var key := NewPublicKey(accepts, Get(result, "publicKey").value);
      if key.Err? {
        state := Merge(state, ErrorPatch(key.error));
        return Err(key.error);
      }
      if ValidatePublicKey(accepts, Key(key.value)).Fail? {
        // a PublicKey instance always passes `_validatePublicKey`
        assert false;
      }
      publicKey := Some(key.value);
      connected := true;
      state := Merge(state, StatePatch(Some(true), Some([key.value.base58]), Some(None)));
      r := Ok(key.value);
    }

    /** `disconnect()` */
    method Disconnect(reply: Result<Value>) returns (r: Result<Value>)
      requires Valid()
      modifies this
      ensures Valid()
      ensures Step(Snapshot(), r) == DisconnectStep(old(Snapshot()), reply)
    {
      requests := requests + [BridgeDisconnect];
      if reply.Err? {
        state := Merge(state, ErrorPatch(reply.error));
        return Err(reply.error);
      }
      publicKey := None;
      connected := false;
      state := Merge(state, StatePatch(Some(false), Some([]), Some(None)));
      r := Ok(Undefined);
    }

    /** `signMessage(message)` */
    method SignMessage(message: Value, reply: Result<Value>) returns (r: Result<SignedMessage>)
      requires Valid()
      modifies this
      ensures Valid()
      ensures Step(Snapshot(), r) == SignMessageStep(old(Snapshot()), message, reply)
    {
      if publicKey.None? {
        return Err(NOT_CONNECTED);
      }
      var key := publicKey.value;
      var check := ValidateMessage(message);
      if check.Fail? {
        return Err(check.error);
      }
      requests := requests + [BridgeSignMessage(message.s, key.base58)];
      if reply.Err? {
        state := Merge(state, ErrorPatch(reply.error));
        return Err(reply.error);
      }
      var result := reply.value;
      if !Truthy(result) || !Truthy(Get(result, "signature").value) {
        var e := Error("Invalid signature response");
        state := Merge(state, ErrorPatch(e));
        return Err(e);
      }
      r := Ok(SignedMessage(Get(result, "signature").value, key));
    }

    /** `signTransaction(transaction)`: returns a new transaction decoded from the bridge's
        answer and leaves the argument as it was. */
    method SignTransaction(transaction: TxArg, replies: SignReplies) returns (r: Result<Transaction>)
      requires Valid()
      modifies this
      ensures Valid()
      ensures var s := SignTransactionStep(old(Snapshot()), old(Input(transaction)), replies);
              Snapshot() == s.view && Delivered(r, s.result)
      ensures r.Ok? ==> fresh(r.value)
    {
      if publicKey.None? {
        return Err(NOT_CONNECTED);
      }
      var key := publicKey.value;
      var check := ValidateTransaction(Input(transaction));
      if check.Fail? {
        return Err(check.error);
      }
      var tx := transaction.tx;
      if !Truthy(tx.recentBlockhash) {
        // the source fetches the latest blockhash here; validation has required one
        assert false;
      }
      if !Truthy(tx.feePayer) {
        // the source makes the wallet the fee payer here; validation has required one
        assert false;
      }
      if replies.serialize.Fail? {
        state := Merge(state, ErrorPatch(replies.serialize.error));
        return Err(replies.serialize.error);
      }
      requests := requests + [BridgeSignTransaction(tx.Content(), key.base58)];
      if replies.signed.Err? {
        state := Merge(state, ErrorPatch(replies.signed.error));
        return Err(replies.signed.error);
      }
      if !Truthy(replies.signed.value) {
        var e := Error("Invalid signed transaction response");
        state := Merge(state, ErrorPatch(e));
        return Err(e);
      }
      if replies.decoded.Err? {
        state := Merge(state, ErrorPatch(replies.decoded.error));
        return Err(replies.decoded.error);
      }
      var signed := new Transaction.Decoded(replies.decoded.value);
      r := Ok(signed);
    }

    /** `signAndSendTransaction(transaction)` */
    method SignAndSendTransaction(transaction: TxArg, replies: SendReplies) returns (r: Result<Sent>)
      requires Valid()
      modifies this
      ensures Valid()
      ensures Step(Snapshot(), r) == SignAndSendStep(old(Snapshot()), old(Input(transaction)), replies)
    {
      if publicKey.None? {
        return Err(NOT_CONNECTED);
      }
      var key := publicKey.value;
      var check := ValidateTransaction(Input(transaction));
      if check.Fail? {
        return Err(check.error);
      }
      var signed := SignTransaction(transaction, replies.sign);
      if signed.Err? {
        state := Merge(state, ErrorPatch(signed.error));
        return Err(signed.error);
      }
      if replies.serializeSigned.Fail? {
        state := Merge(state, ErrorPatch(replies.serializeSigned.error));
        return Err(replies.serializeSigned.error);
      }
      requests := requests + [RpcSendRawTransaction(endpoint, signed.value.Content())];
      if replies.sent.Err? {
        state := Merge(state, ErrorPatch(replies.sent.error));
        return Err(replies.sent.error);
      }
      var signature := replies.sent.value;
      requests := requests + [RpcConfirmTransaction(endpoint, signature)];
      if replies.confirmed.Err? {
        state := Merge(state, ErrorPatch(replies.confirmed.error));
        return Err(replies.confirmed.error);
      }
      var confirmation := replies.confirmed.value;
      var outcome := ConfirmationOutcome(confirmation);
      if outcome.Fail? {
        state := Merge(state, ErrorPatch(outcome.error));
        return Err(outcome.error);
      }
      r := Ok(Sent(signature, key, confirmation));
    }

    /** `getBalance(publicKey = this._publicKey)`; `Undefined` stands for an omitted argument. */
    method GetBalance(publicKey: Value, reply: Result<Value>) returns (r: Result<BaseWallet.Amount>)
      requires Valid()
      modifies this
      ensures Valid()
      ensures Step(Snapshot(), r) == GetBalanceStep(accepts, old(Snapshot()), publicKey, reply)
    {
      var owner := if publicKey == Undefined then PublicKeyValue() else publicKey;
      if !Truthy(owner) {
        return Err(Error("Public key is required"));
      }
      var check := ValidatePublicKey(accepts, owner);
      if check.Fail? {
        return Err(check.error);
      }
      requests := requests + [RpcGetBalance(endpoint, owner)];
      if reply.Err? {
        state := Merge(state, ErrorPatch(reply.error));
        return Err(reply.error);
      }
      r := Ok(BaseWallet.Amount(reply.value, 9));
    }

    /** `getTokenAccounts(publicKey = this._publicKey)` */
    method GetTokenAccounts(publicKey: Value, reply: Result<seq<TokenAccount>>)
      returns (r: Result<seq<TokenAccount>>)
      requires Valid()
      modifies this
      ensures Valid()
      ensures Step(Snapshot(), r) == GetTokenAccountsStep(accepts, old(Snapshot()), publicKey, reply)
    {
      var owner := if publicKey == Undefined then PublicKeyValue() else publicKey;
      if !Truthy(owner) {
        return Err(Error("Public key is required"));
      }
      var check := ValidatePublicKey(accepts, owner);
      if check.Fail? {
        return Err(check.error);
      }
      var programId := NewPublicKey(accepts, Str(TOKEN_PROGRAM_ID));
      if programId.Err? {
        state := Merge(state, ErrorPatch(programId.error));
        return Err(programId.error);
      }
      requests := requests + [RpcGetParsedTokenAccountsByOwner(endpoint, owner, programId.value)];
      if reply.Err? {
        state := Merge(state, ErrorPatch(reply.error));
        return Err(reply.error);
      }
      r := reply;
    }

    /** `getTokenBalance(mint, publicKey = this._publicKey)` */
    method GetTokenBalance(mint: Value, publicKey: Value, reply: Result<seq<TokenAccount>>)
      returns (r: Result<Value>)
      requires Valid()
      modifies this
      ensures Valid()
      ensures Step(Snapshot(), r) == GetTokenBalanceStep(accepts, old(Snapshot()), mint, publicKey, reply)
    {
      var owner := if publicKey == Undefined then PublicKeyValue() else publicKey;
      if !Truthy(owner) {
        return Err(Error("Public key is required"));
      }
      if !Truthy(mint) {
        return Err(Error("Token mint address is required"));
      }
      var ownerCheck := ValidatePublicKey(accepts, owner);
      if ownerCheck.Fail? {
        return Err(ownerCheck.error);
      }
      var mintCheck := ValidatePublicKey(accepts, mint);
      if mintCheck.Fail? {
        return Err(mintCheck.error);
      }
      var accounts := GetTokenAccounts(owner, reply);
      if accounts.Err? {
        state := Merge(state, ErrorPatch(accounts.error));
        return Err(accounts.error);
      }
      var found := FindByMint(accounts.value, ToText(mint));
      if found.None? {
        return Ok(Num(0));
      }
      r := Ok(accounts.value[found.value].uiAmount);
    }

    /** `switchNetwork(network)` */
    method SwitchNetwork(network: Value, reply: Result<Value>) returns (r: Result<Value>)
      requires Valid()
      modifies this
      ensures Valid()
      ensures Step(Snapshot(), r) == SwitchNetworkStep(old(Snapshot()), network, reply)
    {
      if !Truthy(network) || TypeOf(network) != "string" {
        return Err(Error("Invalid network parameter"));
      }
      requests := requests + [BridgeSwitchNetwork(network.s)];
      if reply.Err? {
        state := Merge(state, ErrorPatch(reply.error));
        return Err(reply.error);
      }
      endpoint := network;
      state := Merge(state, StatePatch(None, None, Some(None)));
      r := Ok(Undefined);
    }

    /** `createTransferTransaction(toPublicKey, amount, fromPublicKey = this._publicKey)` */
    method CreateTransferTransaction(to: Value, amount: Value, from: Value, latestBlockhash: Result<Value>)
      returns (r: Result<Transaction>)
      requires Valid()
      modifies this
      ensures Valid()
      ensures var s := CreateTransferStep(accepts, old(Snapshot()), to, amount, from, latestBlockhash);
              Snapshot() == s.view && Delivered(r, s.result)
      ensures r.Ok? ==> fresh(r.value)
    {
      var sender := if from == Undefined then PublicKeyValue() else from;
      if !Truthy(sender) {
        return Err(Error("Sender public key is required"));
      }
      if !Truthy(to) {
        return Err(Error("Recipient public key is required"));
      }
      if !TransferAmountAcceptedAsWritten(amount) {
        return Err(Error("Invalid transfer amount"));
      }
      var senderCheck := ValidatePublicKey(accepts, sender);
      if senderCheck.Fail? {
        return Err(senderCheck.error);
      }
      var recipientCheck := ValidatePublicKey(accepts, to);
      if recipientCheck.Fail? {
        return Err(recipientCheck.error);
      }
      var transaction := new Transaction();
      requests := requests + [RpcGetLatestBlockhash(endpoint)];
      if latestBlockhash.Err? {
        state := Merge(state, ErrorPatch(latestBlockhash.error));
        return Err(latestBlockhash.error);
      }
      var response := Get(latestBlockhash.value, "blockhash");
      if response.Err? {
        state := Merge(state, ErrorPatch(response.error));
        return Err(response.error);
      }
      transaction.Add(Transfer(sender, to, Lamports(amount)));
      transaction.recentBlockhash := response.value;
      transaction.feePayer := sender;
      r := Ok(transaction);
    }
  }
}

# Multi-chain wallet adapter — a Dafny model

This project models the core of a JavaScript library that puts one interface in front of three
kinds of cryptocurrency wallet: EVM chains through an injected EIP-1193 provider
(`window.ethereum`), Tron through TronLink (`window.tronWeb`), and Solana through a host bridge
(`_callAndroid`) plus an RPC `Connection`. A factory picks the adapter from a chain tag, and a
facade class `Wallet` forwards every call to the adapter it was given.

Module by source file:

- `BaseWallet` (base_wallet.dfy) — the base class: the constructor's stored fields with the
  upper-cased chain tag, and the "must be implemented" failure of every member not overridden.
- `SolanaWallet` (solana_wallet.dfy) — the Solana adapter. Every operation is a step function
  over a `View` (the key, the connected flag, the endpoint, the state record and the requests
  issued so far) and the replies of the bridge and the endpoint. The class `SolanaWallet` has the
  adapter's fields and one method per operation, each proved to follow its step. `Transaction` is
  a class as well, because the source writes its fields in place.
- `EVMWallet` and `TronWallet` (evm_wallet.dfy, tron_wallet.dfy) — no field changes after
  construction, so each operation is a function from the wallet and the provider's replies to the
  requests it issued, in order, and its outcome.
- `WalletFactory` (wallet_factory.dfy) — the tag switch and the adapter construction.
- `Index` (index.dfy) — the `Wallet` facade of src/index.js.
- `Js` and `Numbers` (js.dfy, numbers.dfy) — the JavaScript semantics the adapters rely on:
  truthiness, `typeof`, property reads that throw on null and undefined, `String(v)`,
  `toUpperCase`, `parseInt` (section 19.2.5 of ECMA-262) and `Number.prototype.toString(radix)`
  for integers, with the round trips the EVM adapter depends on.

External parties are inputs. A bridge call, an RPC call or a provider request is a `Result`
parameter: the answer, or what it threw. Whether the Solana library's `new PublicKey(text)`
accepts a text is a function `KeyDecoder` given to the wallet. The provider objects found in the
page are the factory's `Environment`.

The library's design description and its code differ in places; the model follows the code:

- EVM `connect` returns `accounts[0]` without checking the address format.
- EVM `getBalance` divides by 10^18 instead of returning base units.
- No adapter has `switchChain`, `signTypedData` or events.
- The EVM and Tron adapters keep no state record.
- A successful Solana sign or send leaves `lastError` as it was; only `connect`, `disconnect` and
  `switchNetwork` clear it.
- The Solana `publicKey` getter returns null when not connected instead of throwing.
- A failed confirmation throws, so the signature is not returned to the caller.
- `_callAndroid` and `_updateState` are defined in neither src/wallets/BaseWallet.js nor
  src/wallets/SolanaWallet.js (see Findings). The model gives `_callAndroid` the semantics of a
  bridge request whose answer is an input, and `_updateState(partial)` the semantics of
  overwriting the fields present in `partial`.

Where the code has a defect (see Findings), the operations keep the behaviour as written, except
for the missing bridge helpers (above), and the corrected definition is stated and proved beside them: `TronWallet.PublicKeyAsWritten` and
`TronWallet.PublicKey`, `SolanaWallet.CreateTransferStep` and
`SolanaWallet.CreateTransferStepCorrected`, `Index.Wallet.ConnectedAsWritten` and
`Index.Wallet.Connected`.

## Model

| member | source | states |
|---|---|---|
| `Numbers.ToRadix` | src/wallets/EVMWallet.js:15 | `n.toString(16)` of a natural number is lower-case digits with no leading zero, and "0" only for 0 |
| `Numbers.FromDigitsToRadix` | src/wallets/EVMWallet.js:15 | reading back the digits `toString(radix)` writes gives the number again |
| `Numbers.ToRadixFromDigits` | src/wallets/EVMWallet.js:15 | every canonical digit string is what `toString(radix)` writes for the number it denotes, so the writer is a bijection |
| `Numbers.ToRadixInjective` | src/wallets/EVMWallet.js:15 | distinct numbers get distinct digit strings |
| `Numbers.DigitPrefixLength` | src/wallets/EVMWallet.js:58 | `parseInt` reads the longest prefix of digits of the radix and stops at the first non-digit |
| `Numbers.ParseHexQuantity` | src/wallets/EVMWallet.js:15-22 | `parseInt("0x" + n.toString(16))` is `n`, with radix 16 or none |
| `Numbers.ParseIntToRadix` | src/wallets/EVMWallet.js:71 | `parseInt(n.toString(r), r)` is `n` for any integer, negative ones included, in radix 10 or 16 |
| `Numbers.ParseDecimalString` | src/wallets/EVMWallet.js:15 | `parseInt(String(n))` is `n` for integers below 10^21 in magnitude |
| `Js.Get` | src/wallets/SolanaWallet.js:48 | reading a property throws exactly on null and undefined, and reads an object's own property or undefined |
| `Js.ToStringRadix` | src/wallets/EVMWallet.js:71 | `v.toString(radix)` throws exactly on null and undefined, and writes a number's digits in the radix |
| `Js.ParseIntValue` | src/wallets/EVMWallet.js:58 | `parseInt(v, radix)` always yields an integer or NaN |
| `Js.ToUpperCaseIdempotent` | src/wallets/BaseWallet.js:4 | upper-casing an upper-cased tag changes nothing |
| `BaseWallet.NormalizeChainType` | src/wallets/BaseWallet.js:4 | a falsy tag is stored as it is; a non-empty string is stored as its upper case, which keeps its length and is unchanged by upper-casing again; any other truthy value throws a TypeError |
| `BaseWallet.Construct` | src/wallets/BaseWallet.js:2-6 | `chainId` and `rpcUrl` are stored unchanged, the stored tag is the normalized one (a string tag's upper case), and construction fails, with a TypeError, exactly when the tag cannot be upper-cased |
| `BaseWallet.ConstructIgnoresCase` | src/wallets/BaseWallet.js:4 | tags equal up to letter case are stored alike |
| `BaseWallet.AdapterTagStored` | src/wallets/BaseWallet.js:2-6 | the literal tags the adapters pass ('SOLANA', 'TRON', 'EVM') are stored unchanged |
| `BaseWallet.Unimplemented` | src/wallets/BaseWallet.js:8-34 | every member not overridden throws a plain Error |
| `BaseWallet.CallInherited` | src/wallets/BaseWallet.js:8-34 | calling a member that is not overridden always fails with a plain Error whose message names that member and no other |
| `BaseWallet.UnimplementedDistinct` | src/wallets/BaseWallet.js:8-34 | each of the seven members fails with a message of its own |
| `BaseWallet.TransferParams` | src/wallets/BaseWallet.js:32 | destructuring `{to, lamports}` throws exactly on null and undefined and otherwise reads both properties |
| `EVMWallet.New` | src/wallets/EVMWallet.js:4-7 | the adapter stores tag 'EVM', `chainId` and `rpcUrl` unchanged, and the provider found |
| `EVMWallet.ChainIdHex` | src/wallets/EVMWallet.js:15 | the chain id is sent as "0x" plus canonical hex digits that `parseInt` reads back as `parseInt(chainId)` |
| `EVMWallet.ChainIdHexOfNumber` | src/wallets/EVMWallet.js:15 | a numeric chain id `n` is sent as "0x" followed by the hex digits of `n` |
| `EVMWallet.AddChainFor` | src/wallets/EVMWallet.js:19-28 | the registered chain carries the same hex id, `rpcUrls: [rpcUrl]`, the fixed name and 18 decimals |
| `EVMWallet.SwitchStep` | src/wallets/EVMWallet.js:12-33 | a falsy chain id skips the switch; otherwise the switch is the first request; a successful switch succeeds; an add-chain request follows exactly when the switch failed with code 4902 and `rpcUrl` is truthy, and then the add's outcome is the step's; any other switch error is rethrown |
| `EVMWallet.Connect` | src/wallets/EVMWallet.js:9-36 | no provider: "MetaMask not found" and no request; the switch comes first and is never retried; the add-chain request is issued exactly on a recoverable 4902; a failed switch step ends the call with its error; after a successful or recovered switch exactly `eth_requestAccounts` follows, and its element 0 or its error is the result |
| `EVMWallet.AddedChainMatchesSwitch` | src/wallets/EVMWallet.js:12-35 | on an unknown chain the trace is switch, add with the same id, request accounts |
| `EVMWallet.Connected` | src/wallets/EVMWallet.js:47-49 | `connected` is a boolean that holds only with a provider whose `selectedAddress` is not undefined, null, false, NaN or ""; for a string address it holds exactly when the address is non-empty |
| `EVMWallet.ConnectedAccountIsUsed` | src/wallets/EVMWallet.js:42-74 | while connected, the address `publicKey` reports is the one `getBalance` queries and the `from` of every transfer |
| `EVMWallet.PublicKey` | src/wallets/EVMWallet.js:42-49 | the getter throws "Wallet not connected" exactly when `connected` is false, and otherwise returns the truthy `selectedAddress` |
| `EVMWallet.Disconnect` | src/wallets/EVMWallet.js:38-40 | disconnecting issues nothing and resolves to undefined |
| `EVMWallet.GetBalance` | src/wallets/EVMWallet.js:51-59 | no provider: "MetaMask not found" and no request; otherwise one `eth_getBalance` for the selected address at 'latest'; an answer gives `parseInt(bal, 16)` in units of 10^18, a rejection is rethrown |
| `EVMWallet.GetBalanceReadsQuantity` | src/wallets/EVMWallet.js:58 | a canonical hex quantity from the provider is read back exactly |
| `EVMWallet.GetBalanceExample` | src/wallets/EVMWallet.js:58 | the reply "0x2540be400" is 10000000000 wei |
| `EVMWallet.SignTransaction` | src/wallets/EVMWallet.js:61-63 | signing alone always rejects |
| `EVMWallet.TxValue` | src/wallets/EVMWallet.js:71 | the value field throws on null and undefined lamports and is "0x" plus canonical hex that reads back as the amount |
| `EVMWallet.SignAndSendTransaction` | src/wallets/EVMWallet.js:65-74 | at most one request: one `eth_sendTransaction` of `{from: selectedAddress, to, value}` exactly when a provider exists and the parameters and value can be read, and its answer is returned; null or undefined lamports throw a TypeError with no request |
| `EVMWallet.SentValueRoundTrips` | src/wallets/EVMWallet.js:65-73 | an integral wei amount is sent as a hex value that reads back as that amount, with `to` unchanged |
| `TronWallet.New` | src/wallets/TronWallet.js:4-7 | the adapter stores tag 'TRON', `chainId` and `rpcUrl` unchanged, and the TronWeb object found |
| `TronWallet.Base58` | src/wallets/TronWallet.js:12 | reading `defaultAddress.base58` throws exactly when there is no default address object |
| `TronWallet.Connect` | src/wallets/TronWallet.js:9-13 | no request is made; no provider gives "TronLink not found"; otherwise the result is `defaultAddress.base58` |
| `TronWallet.Disconnect` | src/wallets/TronWallet.js:15-17 | disconnecting issues nothing and resolves to undefined |
| `TronWallet.Connected` | src/wallets/TronWallet.js:24-26 | `connected` holds exactly when `connect()` would succeed with a truthy address |
| `TronWallet.PublicKeyAsWritten` | src/wallets/TronWallet.js:19-22 | the getter throws exactly when the provider or `defaultAddress` is missing, and otherwise returns `base58` |
| `TronWallet.PublicKeyOfLockedWallet` | src/wallets/TronWallet.js:19-26 | for a locked TronLink the getter returns `false` while `connected` is false |
| `TronWallet.PublicKey` | src/wallets/TronWallet.js:19-26 | the getter throws exactly when `connected` is false and otherwise returns the truthy address |
| `TronWallet.PublicKeyAgreesWhenConnected` | src/wallets/TronWallet.js:19-26 | the corrected getter differs from the written one only where `connected` is false |
| `TronWallet.GetBalance` | src/wallets/TronWallet.js:28-33 | no provider: "TronLink not found" before any query; otherwise at most one `trx.getBalance` of the base58 address; an answer gives the amount in units of 10^6, a rejection is rethrown |
| `TronWallet.SignTransaction` | src/wallets/TronWallet.js:35-37 | signing alone always rejects |
| `TronWallet.SignAndSendTransaction` | src/wallets/TronWallet.js:39-43 | no provider: "TronLink not found"; otherwise exactly one `trx.sendTransaction(to, lamports)` with both values unchanged, whose answer is returned |
| `TronWallet.TransferForwarded` | src/wallets/TronWallet.js:39-43 | an object argument's `to` and `lamports` reach TronLink unchanged |
| `SolanaWallet.NewPublicKey` | src/wallets/SolanaWallet.js:52 | a key is copied and a text is accepted exactly when the decoder accepts it; the key's text is the input text |
| `SolanaWallet.ValidatePublicKey` | src/wallets/SolanaWallet.js:12-23 | passes exactly for a key or a decodable text; every failure, the inner "Invalid public key" included, is "Invalid Solana public key" |
| `SolanaWallet.ValidateTransaction` | src/wallets/SolanaWallet.js:25-36 | passes exactly for a transaction with a truthy blockhash and fee payer; the first missing item decides the message |
| `SolanaWallet.ValidateMessage` | src/wallets/SolanaWallet.js:38-43 | passes exactly for non-empty strings; anything else fails with "Message must be a non-empty string" |
| `SolanaWallet.Merge` | src/wallets/SolanaWallet.js:57-61 | the state update overwrites the fields present in the patch and keeps the others |
| `SolanaWallet.ConnectedIffAccounts` | src/wallets/SolanaWallet.js:55-61 | in a consistent wallet the state is connected exactly when it lists one account |
| `SolanaWallet.ConnectStep` | src/wallets/SolanaWallet.js:45-68 | one bridge request; success exactly for a truthy answer with a decodable `publicKey`, which sets the key, the flag and state `{connected: true, accounts: [key], lastError: null}`; a rejected bridge call is rethrown, an answer without a truthy `publicKey` gives "Invalid connect response", an undecodable key "Invalid public key input"; any failure changes only `lastError`; consistency is preserved |
| `SolanaWallet.ConnectAsPublished` | src/wallets/SolanaWallet.js:45-68 | with the helpers missing, `connect` fails and changes nothing |
| `SolanaWallet.PublishedConnectNeverConnects` | src/wallets/SolanaWallet.js:47-65 | with the helpers missing, a disconnected wallet stays disconnected and `connect` throws the catch block's TypeError |
| `SolanaWallet.ConnectAcceptsKey` | src/wallets/SolanaWallet.js:45-63 | a bridge answer carrying an accepted key connects the wallet to that key |
| `SolanaWallet.DisconnectStep` | src/wallets/SolanaWallet.js:70-84 | one bridge request; on success key null, flag false, state `{connected: false, accounts: [], lastError: null}`; on failure only `lastError` changes and the error is rethrown |
| `SolanaWallet.DisconnectUndoesConnect` | src/wallets/SolanaWallet.js:45-84 | a successful connect then disconnect leaves the state as constructed |
| `SolanaWallet.PublicKeyOf` | src/wallets/SolanaWallet.js:86-88 | the getter gives null exactly when the wallet is not connected, and the stored key otherwise |
| `SolanaWallet.SignMessageStep` | src/wallets/SolanaWallet.js:94-116 | not connected: "Wallet not connected", nothing changes; an invalid message fails before any request; otherwise one bridge request with the key's text, which succeeds exactly when the answer and its signature are truthy, with that signature and the key; a failure sets only `lastError` |
| `SolanaWallet.SignTransactionStep` | src/wallets/SolanaWallet.js:118-145 | not connected or invalid: fails with nothing changed; otherwise the only request is the bridge signing the caller's transaction unchanged (no blockhash fetch, no fee-payer write); it succeeds exactly when serializing works and the bridge gives a truthy answer that decodes, and returns the decoded transaction; a serialization failure issues nothing |
| `SolanaWallet.ConfirmationOutcome` | src/wallets/SolanaWallet.js:158-161 | a confirmation passes exactly when `value.err` can be read and is falsy |
| `SolanaWallet.SignAndSendStep` | src/wallets/SolanaWallet.js:147-172 | not connected or invalid: fails with nothing changed; it succeeds exactly when signing, serializing, sending and confirming succeed and the confirmation carries no error, after a send of the signed transaction and a confirmation of its signature, and returns the signature, key and confirmation; a failed signing is rethrown; a failed send is rethrown after exactly the send request, a failed confirmation after the send and confirmation requests; a confirmation carrying an error throws after the transaction was sent |
| `SolanaWallet.KeyOrStored` | src/wallets/SolanaWallet.js:174 | the default key applies only when the argument is omitted |
| `SolanaWallet.GetBalanceStep` | src/wallets/SolanaWallet.js:174-185 | no key: "Public key is required"; invalid key: "Invalid Solana public key", both before any request; otherwise one balance request for that key, whose answer is the amount in units of 10^9 and whose failure is rethrown |
| `SolanaWallet.GetTokenAccountsStep` | src/wallets/SolanaWallet.js:187-201 | same checks; then one parsed-accounts request for the owner under the token program, whose answer or failure is the result |
| `SolanaWallet.FindByMint` | src/wallets/SolanaWallet.js:212-214 | `find` yields the first account of the mint, or none when no account has it |
| `SolanaWallet.TokenBalanceIn` | src/wallets/SolanaWallet.js:211-220 | the balance is the first matching account's `uiAmount`, or 0 when none matches |
| `SolanaWallet.TokenBalanceSkipsOthers` | src/wallets/SolanaWallet.js:212-218 | accounts of other mints ahead of the match do not change the balance |
| `SolanaWallet.GetTokenBalanceStep` | src/wallets/SolanaWallet.js:203-225 | key, mint and validation checks in order before any request; then exactly one parsed-accounts request for the owner, whose answer gives the balance of `mint.toString()` in the listed accounts and whose failure is rethrown |
| `SolanaWallet.SwitchNetworkStep` | src/wallets/SolanaWallet.js:227-240 | a falsy or non-string network fails before any request; otherwise one bridge request; success moves the connection to the network and clears `lastError`; a rejected bridge call is rethrown, keeps the connection and sets `lastError`; the key and account never change |
| `SolanaWallet.NaNAmountAccepted` | src/wallets/SolanaWallet.js:245-247 | the written amount check lets NaN through |
| `SolanaWallet.TransferAmountCheckCorrected` | src/wallets/SolanaWallet.js:245-247 | the corrected check is the written one with NaN excluded |
| `SolanaWallet.Lamports` | src/wallets/SolanaWallet.js:260 | `amount * LAMPORTS_PER_SOL` is NaN exactly for NaN, and otherwise a multiple of 10^9 whose quotient is the amount |
| `SolanaWallet.LamportsDenoteAmount` | src/wallets/SolanaWallet.js:260 | the lamports of a positive integral amount, read in units of 10^9, are exactly that amount of SOL |
| `SolanaWallet.CreateTransferStep` | src/wallets/SolanaWallet.js:242-272 | sender, recipient and amount (as written) checks, then both key validations, all before any request; past them exactly one blockhash request, and success exactly when its answer has a readable `blockhash`, building `{blockhash, feePayer: sender, [transfer(sender, to, amount * 10^9)]}`; a failed blockhash request or an unreadable answer is rethrown and sets only `lastError` |
| `SolanaWallet.NaNTransferBuilt` | src/wallets/SolanaWallet.js:245-266 | with valid keys, NaN passes the check, a blockhash is fetched and a transfer of NaN lamports is built |
| `SolanaWallet.CreateTransferStepCorrected` | src/wallets/SolanaWallet.js:242-272 | with NaN refused, the step agrees with the written one on every other amount, and a built transfer carries integral lamports whose quotient by 10^9 is the amount |
| `SolanaWallet.CreatedTransferIsSignable` | src/wallets/SolanaWallet.js:242-272 | a created transfer with a blockhash passes transaction validation |
| `SolanaWallet.Transaction.constructor` | src/wallets/SolanaWallet.js:253 | a new transaction has no blockhash, no fee payer and no instructions |
| `SolanaWallet.Transaction.Decoded` | src/wallets/SolanaWallet.js:140 | the transaction decoded from the bridge's answer has the decoded content |
| `SolanaWallet.Transaction.Add` | src/wallets/SolanaWallet.js:256-262 | adding appends the instruction and keeps the other fields |
| `SolanaWallet.SolanaWallet.constructor` | src/wallets/SolanaWallet.js:5-10 | tag 'SOLANA', `chainId` and `rpcUrl` stored; no key, not connected, connection to `rpcUrl`, initial state, no request |
| `SolanaWallet.SolanaWallet.PublicKeyValue` | src/wallets/SolanaWallet.js:86-88 | the getter reads the stored key |
| `SolanaWallet.SolanaWallet.IsConnected` | src/wallets/SolanaWallet.js:90-92 | the flag holds exactly when the getter gives a key |
| `SolanaWallet.SolanaWallet.Connect` | src/wallets/SolanaWallet.js:45-68 | the new fields and the result are those of `ConnectStep`, and the invariant is kept |
| `SolanaWallet.SolanaWallet.Disconnect` | src/wallets/SolanaWallet.js:70-84 | the new fields and the result are those of `DisconnectStep` |
| `SolanaWallet.SolanaWallet.SignMessage` | src/wallets/SolanaWallet.js:94-116 | the new fields and the result are those of `SignMessageStep` |
| `SolanaWallet.SolanaWallet.SignTransaction` | src/wallets/SolanaWallet.js:118-145 | the new fields are those of `SignTransactionStep`, the argument is left alone, and a new transaction with the decoded content is returned |
| `SolanaWallet.SolanaWallet.SignAndSendTransaction` | src/wallets/SolanaWallet.js:147-172 | the new fields and the result are those of `SignAndSendStep` |
| `SolanaWallet.SolanaWallet.GetBalance` | src/wallets/SolanaWallet.js:174-185 | the new fields and the result are those of `GetBalanceStep` |
| `SolanaWallet.SolanaWallet.GetTokenAccounts` | src/wallets/SolanaWallet.js:187-201 | the new fields and the result are those of `GetTokenAccountsStep` |
| `SolanaWallet.SolanaWallet.GetTokenBalance` | src/wallets/SolanaWallet.js:203-225 | the new fields and the result are those of `GetTokenBalanceStep` |
| `SolanaWallet.SolanaWallet.SwitchNetwork` | src/wallets/SolanaWallet.js:227-240 | the new fields and the result are those of `SwitchNetworkStep` |
| `SolanaWallet.SolanaWallet.CreateTransferTransaction` | src/wallets/SolanaWallet.js:242-272 | the new fields are those of `CreateTransferStep` and a new transaction with its content is returned |
| `WalletFactory.SelectChain` | src/wallets/WalletFactory.js:7-15 | a tag selects a variant exactly when it is a string whose upper case is SOLANA, TRON or EVM, and then the one with that tag; other strings give "Unsupported chainType"; non-strings a TypeError |
| `WalletFactory.SelectChainInjective` | src/wallets/WalletFactory.js:7-13 | two tags select the same variant exactly when their upper cases are equal |
| `WalletFactory.UpperCaseMatch` | src/wallets/WalletFactory.js:7 | matching the upper-cased tag is letter-by-letter case-insensitive matching |
| `WalletFactory.SolanaTagsSelectSolana` | src/wallets/WalletFactory.js:7-9 | 'solana', 'Solana' and 'SOLANA' all select the Solana adapter |
| `WalletFactory.CreateWallet` | src/wallets/WalletFactory.js:6-17 | the call fails exactly when the tag selects nothing, with the same error; each tag builds its own adapter with `chainId` and `rpcUrl` unchanged; a Solana adapter is a new object |
| `Index.ParamsValue` | src/index.js:33-35 | a Solana transaction given to an EVM or Tron adapter destructures to undefined `to` and `lamports` |
| `Index.NewWallet` | src/index.js:5-7 | construction fails exactly when the factory does, with its error |
| `Index.Wallet.Connect` | src/index.js:9-11 | the result is the wrapped adapter's, and a Solana adapter changes as its own `connect` does |
| `Index.Wallet.Disconnect` | src/index.js:13-15 | the result is the wrapped adapter's |
| `Index.Wallet.PublicKey` | src/index.js:17-19 | the getter is the wrapped adapter's getter, the Tron one as written |
| `Index.Wallet.ConnectedAsWritten` | src/index.js:21-23 | for Solana the BaseWallet getter throws; for EVM and Tron the adapter's flag |
| `Index.Wallet.Connected` | src/index.js:21-23 | the corrected getter never throws and is true exactly when `publicKey` gives a truthy value |
| `Index.ConnectedThrowsForSolana` | src/index.js:21-23 | reading `connected` on any Solana wallet throws "connected getter must be implemented" |
| `Index.ConnectedAgreesOffSolana` | src/index.js:21-23 | on EVM and Tron the written and the corrected getter agree |
| `Index.Wallet.GetBalance` | src/index.js:25-27 | the adapter is called without an argument and its result is returned |
| `Index.BalanceNeedsKey` | src/index.js:25-27 | through the facade a Solana wallet with no key fails with "Public key is required" before any request |
| `Index.Wallet.SignTransaction` | src/index.js:29-31 | the transaction is forwarded unchanged and the adapter's result returned |
| `Index.Wallet.SignAndSendTransaction` | src/index.js:33-35 | the parameters are forwarded unchanged and the adapter's result returned |

## Left out

- Floating-point amounts: the divisions by 10^9, 10^18 and 10^6 and the multiplication
  `amount * LAMPORTS_PER_SOL` are kept exact (`BaseWallet.Amount` holds base units and decimals).
  Numbers are integers or NaN; fractions, infinities and precision loss above 2^53 are not
  modelled, so a fractional SOL amount cannot be expressed.
- `Numbers.ParseDecimalString`: holds below 10^21 only; above that `String(n)` uses exponent
  notation and the model does not compute the shortest round-trip digits the engine prints.
- Solana library internals are inputs: base58 decoding (`KeyDecoder`), `serialize()` (a `Check`),
  `Transaction.from` (the decoded content), base64 and `Buffer`, and every `Connection` RPC answer.
  The message signature is kept as the text the bridge returned.
- `SolanaWallet.CreateTransferStep`: `SystemProgram.transfer` is assumed to build its instruction for every amount; whether it throws for NaN lamports (its `BigInt` conversion) is library behaviour the model does not decide.
- `SolanaWallet.SignMessageStep`: the signature is kept as the bridge's answer; `Buffer.from` throws for a truthy signature that is not a string, array or buffer, and that failure is not modelled.
- `SolanaWallet.GetBalanceStep` and `SolanaWallet.GetTokenAccountsStep`: a key given as text is passed to `Connection` as it is; the library converts it with `toBase58` first and fails on text, which the model does not capture (it treats the RPC answer as an input).
- `new PublicKey(x)` for numbers, byte arrays and other objects is treated as a failure.
- Parsed token accounts are reduced to their mint and `uiAmount`; malformed RPC answers that
  would make the nested property reads throw are not modelled.
- `new Connection(url)` is assumed to succeed; the connection is modelled by its endpoint.
- Asynchrony: every `await` is a completed call, in program order; there is no concurrency.
- `window.ethereum` and `window.tronWeb` are constructor inputs. Only `selectedAddress` and
  `defaultAddress` are read from them.
- `toUpperCase` is modelled for ASCII letters and the two non-ASCII letters whose upper case is
  ASCII (dotless i, long s); other characters keep their case. This decides every comparison
  with 'SOLANA', 'TRON' and 'EVM', but not the stored upper case of other non-ASCII tags.
- The `debug` option the Solana constructor passes on is ignored by the base class and is not
  modelled.
- Events, listeners, a provider injector and request correlation are not in this code and are
  not modelled.

## Findings

| source | as written | input that shows it | evidently intended | confidence | as-written member | corrected member |
|---|---|---|---|---|---|---|
| src/index.js:21-23 | `connected` reads `this.wallet.connected`; SolanaWallet defines only `isConnected`, so the BaseWallet getter throws | any Solana wallet, e.g. `new Wallet({chainType: 'solana'})`, then `wallet.connected` | report the adapter's connection flag | high, not executed | `Index.ConnectedThrowsForSolana` | `Index.Wallet.Connected` |
| src/wallets/TronWallet.js:19-22 | `publicKey` checks `defaultAddress` but not `defaultAddress.base58` | a locked TronLink with `defaultAddress = {base58: false, hex: false}`: `publicKey` returns `false`, `connected` is false | throw "Wallet not connected" whenever `connected` is false | medium, not executed | `TronWallet.PublicKeyOfLockedWallet` | `TronWallet.PublicKey` |
| src/wallets/SolanaWallet.js:245 | `typeof amount !== 'number' \|\| amount <= 0` lets NaN pass | `createTransferTransaction(to, NaN)` passes the amount check, validates both keys and fetches a blockhash; whether a transfer is then built depends on `SystemProgram.transfer` | only a positive number passes | medium, not executed | `SolanaWallet.NaNTransferBuilt` | `SolanaWallet.CreateTransferStepCorrected` |
| src/wallets/SolanaWallet.js:47,65 | `_callAndroid` and `_updateState` are called but defined in neither src/wallets/BaseWallet.js nor src/wallets/SolanaWallet.js | `connect()` on any Solana wallet: the bridge call throws a TypeError, and so does the catch block | a bridge request and a field-wise state update | high, not executed | `SolanaWallet.PublishedConnectNeverConnects` | `SolanaWallet.ConnectAcceptsKey` |

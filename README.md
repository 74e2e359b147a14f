# Wallet session and transfer controller

A Dafny model of the controller inside the `App` component of a browser wallet
front end (`src/App.js`). The component connects to a MetaMask-style wallet,
builds a list of assets with their balances (the native asset "ETH" and the
tokens of a fixed registry), lets the user select one, and submits a transfer
of the native asset or of a token.

Every web3 or MetaMask call is replaced by its outcome, passed in as a
parameter: `Some(value)` when the call resolves and `None` when it throws.
`web3.utils.toWei(amount, "ether")` is a function parameter of type
`string -> Option<nat>`, since its implementation belongs to the web3 library.
Each handler runs as one sequential step.

Modules:

- `Wrappers` (`wrappers.dfy`): `Option`, standing for `null`/`undefined` and for call outcomes.
- `Assets` (`assets.dfy`): balances, token-list entries, the registry `knownTokens`, and the predicate `Listed` (an entry is the native entry or names a registry contract).
- `Aggregation` (`aggregation.dfy`): `loadTokens`. The reference function `TokenList` is proved equal to the loop `BuildTokenList`. Lemmas cover order, inclusion, locality of failures and the length bound.
- `Amounts` (`amounts.dfy`): the token amount conversion `floor(wei / 10^(18 - decimals))` and its properties.
- `Transfer` (`transfer.dfy`): the send request `handleTransfer` issues, as the function `PlanTransfer`.
- `App` (`app.dfy`): the class `Session`, whose fields mirror the React state, with one method per handler. Its invariant `Valid` says every listed or selected token is the native entry or a registry contract, and the list has at most one entry more than the registry.

Balances are kept as the integers read from the chain: `NativeBalance(wei)`, or `TokenBalance(raw, decimals)` for a token. The source turns them into floating-point display values.

Where the intended design differs from the code, the model follows the code:

- On an account change, the code keeps `selectedToken` and `transactionHash`. It reloads the balance of the previously selected token object.
- An empty account list clears only `account` and `balance`. The token list stays.
- The amount conversion rounds down silently: "1.5" of a 0-decimal token sends 1 (`Amounts.TokenAmountTruncates`). No invalid-amount error is raised.
- There is no generation counter. Results are never discarded as stale.
- A transfer does not reload any balance.
- The native path is chosen by the symbol "ETH", not by the address. A registry contract that reports the symbol "ETH" would be paid as native value (`Transfer.EthSymbolSendsNative`).

## Model

| member | source | states |
|---|---|---|
| `Assets.KnownTokensAddressesNonEmpty` | src/App.js:54-60 | the registry has two entries, neither with the empty address (so the native entry is distinguishable from registry entries) |
| `Aggregation.BuildTokenList` | src/App.js:94-119 | the pushed list equals `TokenList`: the native entry if its read succeeded, then the entries of every registry contract whose three reads succeed, in registry order |
| `Aggregation.ResolvedAppend` | src/App.js:105-119 | resolving a concatenated registry gives the concatenation of the resolved parts (each contract is handled independently, in order) |
| `Aggregation.ResolvedSplit` | src/App.js:105-119 | contract `i`'s entry sits after the entries of the contracts before it and before those after it, and is present iff its reads all succeed |
| `Aggregation.OneOutcomeAffectsOneEntry` | src/App.js:106-118 | changing one contract's read outcomes changes only that contract's entry; all other entries are unchanged |
| `Aggregation.ResolvedMembership` | src/App.js:105-115 | a token is a registry entry of the list iff some contract's three reads succeed and the token has that contract's address, the queried symbol and the read balance/decimals |
| `Aggregation.ResolvedLength` | src/App.js:105-119 | at most one entry per contract, and one per contract exactly when all reads of all contracts succeed |
| `Aggregation.SingleFailureDropsOne` | src/App.js:106-118 | if exactly one of N contracts fails, N - 1 registry entries remain |
| `Aggregation.NativeEntryFirst` | src/App.js:95-105 | the first entry is the "ETH" entry with empty address iff the native read succeeds; the registry entries follow unchanged either way |
| `Aggregation.TokenListBound` | src/App.js:94-119 | the list has at most one entry more than the registry |
| `Aggregation.TokenListListed` | src/App.js:97-115 | every entry is the native entry or carries a registry address with a token balance |
| `Amounts.Pow10` | src/App.js:199 | powers of ten are positive |
| `Amounts.Quotient` | src/App.js:198-200 | big-integer division by a positive divisor: q * s <= w < (q + 1) * s |
| `Amounts.TokenAmount` | src/App.js:198-200 | the value v sent satisfies v * 10^(18-d) <= toWei(amount) < (v + 1) * 10^(18-d) |
| `Amounts.TokenAmountUnique` | src/App.js:198-200 | those bounds determine the value: any v satisfying them equals TokenAmount |
| `Amounts.TokenAmountFullPrecision` | src/App.js:198-200 | with 18 decimals the value sent is the wei amount itself |
| `Amounts.TokenAmountExact` | src/App.js:198-200 | no amount is lost iff the wei amount is a multiple of 10^(18-d) |
| `Amounts.TokenAmountMonotone` | src/App.js:198-200 | a larger wei amount never gives a smaller token amount |
| `Amounts.TokenAmountSixDecimals` | src/App.js:198-200 | toWei = 10^19 with 6 decimals gives 10000000 |
| `Amounts.TokenAmountTruncates` | src/App.js:198-200 | 1.5 * 10^18 wei with 0 decimals gives 1: the fraction is dropped silently |
| `Transfer.PlanTransfer` | src/App.js:186-208 | for "ETH" a native transfer of exactly toWei(amount) is sent iff toWei succeeds; otherwise a `transfer` on the token's contract is sent iff the decimals read and toWei both succeed, with the floor-converted value; sender and recipient are the account and recipient |
| `Transfer.DecimalsReadAtTransferTime` | src/App.js:193-200 | the send request does not depend on the balance or decimals stored in the token entry, only on the decimals read at transfer time |
| `Transfer.EthSymbolSendsNative` | src/App.js:186-191 | a token reporting symbol "ETH" takes the native path even with a contract address |
| `Transfer.TenTokensWithSixDecimals` | src/App.js:193-208 | "10" of a 6-decimal token sends `transfer(recipient, 10000000)` on that token's contract |
| `App.FirstAccount` | src/App.js:160-163 | `accounts[0]`: present iff the list is non-empty, and then the first account |
| `App.FindToken` | src/App.js:175 | none iff no listed token has the address; otherwise the entry at the first index with that address |
| `App.Refreshed` | src/App.js:64-86 | for "ETH" the native balance iff `getBalance` succeeds; for a token its raw balance and decimals iff both `balanceOf` and `decimals` succeed; null otherwise |
| `App.Session.constructor` | src/App.js:45-52 | the initial state: no account, balance, selected token or hash, an empty list and empty inputs |
| `App.Session.EnterRecipient` | src/App.js:50 | the recipient field takes the entered text |
| `App.Session.EnterAmount` | src/App.js:51 | the amount field takes the entered text |
| `App.Session.LoadBalance` | src/App.js:62-90 | a no-op without web3 or token; otherwise balance becomes the freshly read balance, or null on a failed read |
| `App.Session.LoadTokens` | src/App.js:92-123 | `tokens` is replaced wholesale by `TokenList` of the fresh outcomes (nothing of the old list is kept); empty without web3; the invariant is kept |
| `App.Session.HandleAccountsChanged` | src/App.js:131-142 | non-empty list: account := accounts[0], tokens reloaded, the selected token's balance reloaded if one is selected; empty list: account and balance null, tokens, selected token and hash untouched |
| `App.Session.ConnectWallet` | src/App.js:157-172 | without web3 or on a failed request nothing changes; otherwise account := accounts[0], tokens reloaded, selected token's balance reloaded if one is selected |
| `App.Session.HandleTokenChange` | src/App.js:174-180 | the selected token is the first listed token with the chosen address (or none); the balance is reloaded only when an account is set |
| `App.Session.HandleTransfer` | src/App.js:182-216 | nothing is sent and nothing changes unless web3, account, recipient, amount and selected token are present; the request sent is `PlanTransfer`'s; a token transfer always targets a registry contract; the hash changes only to the hash of a send that succeeded, and no other field changes |

## Left out

- Display conversions: `fromWei` for the native balance and `Number(balance) / 10 ** Number(decimals)` for tokens are floating-point display values. The model keeps the integers read.
- Web3 setup and MetaMask detection (`new Web3(window.ethereum)`, the "MetaMask is not installed" alert) are reduced to the constructor's `providerPresent` flag. Registering and removing the `accountsChanged` listener is not modelled.
- The internals of `getBalance`, contract `call`/`send`, `sendTransaction`, `eth_requestAccounts`, `toWei` and `fromWei` belong to web3 and MetaMask. They appear only as outcomes. The outcomes stand for reads made for the account the source passes; the model does not track that argument.
- Which reads are actually issued (for example, `decimals` is not called after `balanceOf` fails) is not tracked. Only the combined outcome is.
- `PlanTransfer` and `HandleTransfer` require a transfer-time decimals value of at most 18. Above 18, `bigInt(10).pow` gets a negative exponent, and its result depends on the big-integer library.
- Negative amounts: `toWei` is modelled with natural-number results.
- Asynchronous interleaving: `loadBalance` is not awaited by the handlers, and each handler closes over the state of its render. Both are modelled as sequential steps on the current state, so races between overlapping handlers are not represented.
- Logging (`console.log`, `console.error`) and the `ERC20_ABI` constant are left out.
- The JSX (src/App.js:218-244 and `WalletInfo.js`) is presentational and left out. `App.js` passes no `disconnectWallet`, so the Disconnect button has no handler. The `TransactionHash` component with its `setTransactionHash` prop is not part of this model.

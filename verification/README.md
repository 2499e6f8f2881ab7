# Wallet store model

A functional model of the Pinia wallet store of a Cosmos block explorer
(`src/stores/useWalletStore.ts`). The store caches the connected address's
bank balances, delegations, unbonding records and rewards, keeps a
connection record (`walletIsConnected`) backed by `localStorage`, and
derives display values from them.

The model makes the store's ambient inputs explicit:

- the state record is an immutable `WalletState`, and the store together with
  `localStorage` is a `Store`;
- the staking module's `bond_denom` and the chain's `defaultHDPath` storage key
  are parameters;
- the bech32 decode-and-re-encode of `currentAddress` is a function parameter
  `rebech`;
- `localStorage` is a map from key to what `JSON.parse` makes of the stored
  text: the empty string, a record or `null`, or malformed text.

Getters are pure functions (module `WalletGetters`). The actions are
store-to-store functions (module `WalletActions`). JavaScript's `Number(...)`,
`+` and `String(...)` on amounts are modelled in `JsNumber`. Every summing
getter is written as the fold its `forEach` loop performs, and is proved equal
to a loop-free reference sum (`JsNumber.Total`).

Two behaviours of the code are easy to misread:

- A malformed stored record makes `JSON.parse` throw (line 32). It is not
  swallowed as "not connected". The model returns `Failure(SyntaxError)`, which
  propagates through `currentAddress` to `loadMyAsset`.
- `disconnect` sets `walletIsConnected` to `null`, but the `$reset` that
  follows restores `{}`. So after `disconnect` the connection is `{}`, not
  `null`.

## Model

| member | source | states |
|---|---|---|
| JsNumber.NatToDecimal | src/stores/useWalletStore.ts:51 | `String(n)` writes a canonical numeral (non-empty, no redundant leading zero) whose decimal value is `n` |
| JsNumber.NumberOfStringRoundTrip | src/stores/useWalletStore.ts:48-51 | `Number(String(x))` gives back `x` for every total the store can compute, NaN included |
| JsNumber.DecimalRoundTrip | src/stores/useWalletStore.ts:48-51 | a canonical amount string survives `String(Number(s))` unchanged |
| JsNumber.TotalAppend | src/stores/useWalletStore.ts:63-67 | summing a concatenation of amount lists is adding the two partial totals; one non-numeric amount makes the total NaN |
| JsNumber.TotalSnoc | src/stores/useWalletStore.ts:48 | one more `amt += Number(a)` step adds `Number(a)` to the reference total |
| WalletGetters.FindDenom | src/stores/useWalletStore.ts:39-41 | `find` stops at the first coin of the denomination, and finds none exactly when no coin has it |
| WalletGetters.BalanceOfStakingToken | src/stores/useWalletStore.ts:36-43 | the result has the bond denomination; it is the first balance of that denomination, or `{amount:"0", denom:bond_denom}` when there is none |
| WalletGetters.RewardAmount | src/stores/useWalletStore.ts:53-59 | the result has the bond denomination; it is the first bond-denomination entry of `rewards.total`, or the zero placeholder when `total` is absent or lacks one |
| WalletGetters.Accumulate | src/stores/useWalletStore.ts:64-66 | the `forEach` of `amt += Number(a)` starting from any running total yields that total plus the loop-free sum of the amounts |
| WalletGetters.StakingAmount | src/stores/useWalletStore.ts:44-52 | the amount is the decimal string of the exact sum of all delegation amounts, or `"NaN"` if one is not a numeral; the denom is the last delegation's; no delegations give `{amount:"0", denom:""}` |
| WalletGetters.FlattenSnoc | src/stores/useWalletStore.ts:63-67 | visiting records in order, each record's entries in order, visits exactly the concatenated entry list |
| WalletGetters.UnbondingLoop | src/stores/useWalletStore.ts:61-67 | the nested loops leave in `amt` the sum of `balance` over every entry of every unbonding record |
| WalletGetters.UnbondingAmount | src/stores/useWalletStore.ts:60-71 | the amount is the decimal string of that nested sum, or `"NaN"`; the denom is always the bond denomination, so no records give `{amount:"0", denom:bond_denom}` |
| WalletGetters.ShortAddress | src/stores/useWalletStore.ts:78-84 | an address longer than four characters gives exactly its four-character suffix; any other gives `""` |
| WalletTypes.InitialState | src/stores/useWalletStore.ts:14-22 | a fresh store holds no balances, delegations or unbonding records, rewards without `total`, and the connection `{}` |
| WalletGetters.StoredConnection | src/stores/useWalletStore.ts:32 | reading the key: a missing key or empty text gives `{}`, a stored record is returned, malformed text throws |
| WalletGetters.ConnectedWallet | src/stores/useWalletStore.ts:27-35 | the in-memory record unchanged when it has a `cosmosAddress`; otherwise the stored record, `{}` when the key is missing or holds empty text; it throws exactly when no in-memory address shadows malformed stored text |
| WalletGetters.CurrentAddress | src/stores/useWalletStore.ts:72-77 | `""` exactly when the connected record has no address (bech32 output is never empty); otherwise the re-encoded address; a parse error propagates |
| WalletActions.SetConnectedWallet | src/stores/useWalletStore.ts:129-135 | `walletIsConnected` becomes the value, or `{}` for a falsy value; that value is returned; balances, delegations, unbonding, rewards and storage are unchanged |
| WalletActions.Disconnect | src/stores/useWalletStore.ts:120-128 | the HD-path key is removed and every other key kept; every field is back at its initial value, with the connection `{}` |
| WalletActions.LoadMyAsset | src/stores/useWalletStore.ts:88-108 | no request exactly when there is no current address; otherwise the balances, delegations, unbonding and rewards requests in that order, all for the current address; parse errors propagate |
| WalletActions.DisconnectResetsViews | src/stores/useWalletStore.ts:120-128 | after `disconnect`: no connection, current and short address `""`, `loadMyAsset` issues nothing, every amount getter gives its zero placeholder |
| WalletActions.DisconnectIdempotent | src/stores/useWalletStore.ts:120-128 | disconnecting twice is disconnecting once |
| WalletActions.SetThenConnected | src/stores/useWalletStore.ts:129-135 | a record with an address set by `setConnectedWallet` is what `connectedWallet` returns, whatever storage holds |
| WalletActions.ConnectedIgnoresStorage | src/stores/useWalletStore.ts:30-33 | while the in-memory record has an address, `connectedWallet` does not depend on storage |
| WalletActions.StoredRecordIsConnected | src/stores/useWalletStore.ts:31-33 | with no in-memory address, a record stored under the key is the connected wallet |
| WalletActions.ClearedFallsBackToStorage | src/stores/useWalletStore.ts:132 | after `setConnectedWallet` with a falsy value, `connectedWallet` reads storage |
| WalletActions.MalformedStorageThrows | src/stores/useWalletStore.ts:32 | malformed stored text with no in-memory address throws, and `loadMyAsset` fails with it |
| WalletActions.SetThenLoad | src/stores/useWalletStore.ts:89-107 | once a record with an address is set, `loadMyAsset` issues the four requests for that address re-encoded |
| WalletScenarios.StakingAmountReadsBack | src/stores/useWalletStore.ts:44-52 | with numeric amounts, `Number(stakingAmount.amount)` is the exact sum of the delegated amounts |
| WalletScenarios.SingleDelegationUnchanged | src/stores/useWalletStore.ts:44-52 | one delegation with a canonical amount is reported as that same coin |
| WalletScenarios.StakingDenomOfHomogeneous | src/stores/useWalletStore.ts:47-51 | when all delegations share a denomination, that is the result's denomination |
| WalletScenarios.UniqueBondDenomBalance | src/stores/useWalletStore.ts:39-41 | a balance list with one bond-denomination entry yields that entry |
| WalletScenarios.UnbondingOnlyEntriesMatter | src/stores/useWalletStore.ts:63-67 | grouping entries into records differently does not change the unbonding total |
| WalletScenarios.StakingExample | src/stores/useWalletStore.ts:44-52 | delegations of "10" and "5" uatom give `{amount:"15", denom:"uatom"}` |
| WalletScenarios.UnbondingExample | src/stores/useWalletStore.ts:60-71 | records with entries "3" and "7" give `{amount:"10", denom:bond_denom}` |
| WalletScenarios.MissingDenomExample | src/stores/useWalletStore.ts:36-59 | a missing bond denomination in balances or rewards, or a missing `total`, gives the zero placeholder |
| WalletScenarios.ShortAddressExample | src/stores/useWalletStore.ts:78-84 | `"cosmos1abcdxyz"` shortens to `"dxyz"`, `"abc"` to `""` |

## Left out

- `StakingAmount`, `UnbondingAmount`, `Accumulate`: amounts are exact naturals. JavaScript doubles (lines 48 and 65) agree with them only below 2^53; above that the source rounds and the model does not.
- `JsNumber.NatToDecimal`, `JsNumber.NumberOfStringRoundTrip`, `JsNumber.DecimalRoundTrip`, `WalletScenarios.SingleDelegationUnchanged`, `WalletScenarios.StakingAmountReadsBack`: hold in JavaScript only below 2^53. Above it `Number` rounds (`String(Number("9007199254740993"))` is `"9007199254740992"`), and from 1e21 up `String` writes exponent notation.
- `JsNumber.ToNumber`: reads digit-only strings (and `""` as 0) as numbers and everything else as NaN. Other strings `Number` accepts (whitespace, signs, fractions, exponents, hex) are not modelled, because amounts are decimal integers.
- `CurrentAddress`: the bech32 decode and re-encode (lines 74-76) belongs to `@cosmjs/encoding`. It is the parameter `rebech`, assumed total, so an address that `fromBech32` rejects is not modelled. It is required never to return `""` (`NonEmptyEncoding`), as `toBech32` always writes a prefix, the separator `1` and a checksum; `LoadMyAsset` and the lemmas that read the current address carry the same requirement.
- `SetConnectedWallet`: a falsy argument is `None` and any truthy argument is a record. Truthy non-object arguments are not modelled.
- `StoredConnection`: stored JSON is a record, `null`, the empty string or malformed text. Other JSON values (numbers, strings, arrays) are not modelled.
- `ShortAddress`: Dafny characters are Unicode scalar values, while `length` and `substring` (lines 80-81) count UTF-16 code units. The two agree on strings with no character outside the Basic Multilingual Plane, which covers every bech32 address (ASCII only); on other strings the model's suffix can differ from the source's.
- The four RPC calls, their `.then` handlers that overwrite one cache field each, and their ordering are left out. They are asynchronous network plumbing. `LoadMyAsset` stops at the requests it issues.
- `myBalance`, `myDelegations` and `myUnbonding` (lines 109-119) are left out. Each only forwards one RPC call for the current address.
- `ConnectedWallet`: the model re-reads storage on every call, while Pinia caches the getter as a computed value. That value is recomputed only when `walletIsConnected`, its `cosmosAddress` or the chain's `defaultHDPath` changes (lines 29-31), and `localStorage` is not reactive. So the storage lemmas (`StoredRecordIsConnected`, `MalformedStorageThrows`, `ClearedFallsBackToStorage`) describe a fresh evaluation: the first read, or a read after `setConnectedWallet`, `disconnect` or a chain switch. A later write to storage alone is not seen by the source's `connectedWallet`, `currentAddress`, `shortAddress` or `loadMyAsset`.
- The `blockchain` getter and the `console.log` calls are left out: they compute nothing. Pinia's `defineStore` machinery is left out apart from the getter caching named on the `ConnectedWallet` line.

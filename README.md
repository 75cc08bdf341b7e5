# Account info: orchestrator and stale-while-revalidate cache

A Dafny model of the two pieces of decision logic on either side of the
Lightning browser extension's message bus that together produce the
account snapshot the UI shows:

- `info` (background script, `accountInfo` action): asks the session for
  its connector, current account id and current account, calls the
  connector's `getInfo` and `getBalance`, and answers with a `{data}` or
  `{error}` envelope. Every exception is caught. Connector failures are
  checked before the missing-account case. An account named `"LND"` fails
  on purpose. A missing balance currency becomes `"BTC"`.
- `swrGetAccountInfo` (client side): reads the whole accounts cache, hands
  the cached entry for `id` to the callback and resolves the promise with
  it (unless `skipCache` is set or there is no entry), then requests fresh
  info and builds a snapshot from the answer. The snapshot is the error
  variant when the answer carries `error`. Otherwise it is the full variant,
  with the `"BTC"` currency default and a string balance parsed with
  `parseInt`. Only a good snapshot is written back, and what is written is
  the map read at the start with `id` replaced. The callback is then called
  again and the promise resolved again. A transport failure rejects. The
  promise keeps only its first settlement.

Files:

- `js.dfy` (module `Js`): JavaScript truthiness of optional strings, the
  `currency || "BTC"` default, the decimal part of `parseInt`, and integer
  to string conversion as the reference that `parseInt` inverts.
- `connector.dfy` (module `ConnectorInterface`): the shapes `WebLNNode` and
  `GetBalanceResponse`, and `Call<T> = Ok(data) | Fail` for an awaited call
  that may throw.
- `info.dfy` (module `AccountInfoAction`): `info` as the total function
  `Info`. The session and connector are its inputs.
- `api.dfy` (module `Api`): the answer type `AccountInfoRes`, the snapshot
  type `AccountInfo`, and the pure meaning of one call as a `Trace`
  (callback arguments, settlement, map stored). It also holds the running
  system: an `AccountsCache` object shared between calls and one
  `SwrGetAccountInfo` object per call, with steps `Start` (the cache read
  and the stale answer) and `Complete` (the request's result). These steps
  are proved against the trace functions. `InterleavedRefresh` runs two
  calls so that both read before either writes, and proves that the first
  write is lost. `SequentialRefresh` runs the same two calls one after the
  other, and both writes survive.

The code calls the connector before it checks for a current account.
A failing connector therefore yields `"fetching account info failed"` even
when there is no account, and the connector is called even when no account
is set.

## Model

| member | source | states |
|---|---|---|
| `AccountInfoAction.Info` | src/extension/background-script/actions/accounts/info.ts:5-43 | The only errors are "fetching account info failed" and "No current account set". Any failing getConnector, getInfo or getBalance gives the first, whether or not an account is set. "No current account set" comes exactly when the connector calls succeed and the account or its id is missing. An account named "LND" always fails. Data comes exactly when the calls succeed, an account with a truthy id is set, and its name is not "LND". The data carries the session id, the account name and getInfo's data unchanged, and getBalance's balance with its currency or "BTC". |
| `Js.CurrencyOrBtc` | src/common/lib/api.ts:111 | The currency is kept when truthy, otherwise it is "BTC". The result is never empty. |
| `Js.ParseInt` | src/common/lib/api.ts:104 | A string that starts with a digit parses to a non-negative number. A string that is empty or starts with a character other than a digit or sign gives NaN. A negative result needs a leading "-". The result is NaN exactly when no digit follows the optional sign, so a lone sign ("-", "+x") gives NaN. |
| `Js.ParseIntStopsAtNonDigit` | src/common/lib/api.ts:104 | Parsing stops at the first non-digit: an optional sign, digits, then any text that starts with a non-digit give the value of the digits, negated after a "-". |
| `Js.ParseIntOfToString` | src/common/lib/api.ts:103-104 | parseInt of the decimal text of any integer gives back that integer exactly. |
| `Api.NormaliseBalance` | src/common/lib/api.ts:101-104 | A numeric balance is copied unchanged. A string balance is the parseInt of the string. |
| `Api.NormaliseBalanceTextAgrees` | src/common/lib/api.ts:103-104 | A balance sent as the decimal text of an integer gives the same snapshot balance as that integer sent as a number. |
| `Api.Snapshot` | src/common/lib/api.ts:91-114 | The snapshot has the argument id and the answer's name and connector type. It is the error variant exactly when the answer's error is truthy, and then it carries that error. Otherwise it carries info's alias, the normalised balance, the currency or "BTC" (never empty) and the avatar URL. |
| `Api.WriteBack` | src/common/lib/api.ts:116-121 | The stored map has the keys that were read plus id. id maps to the new snapshot, and every other key keeps the value it had when read. |
| `Api.Settle` | src/common/lib/api.ts:85-126 | A settled promise keeps its value. An unsettled one takes the first resolve or reject. |
| `Api.SettleIsFinal` | src/common/lib/api.ts:85-126 | Any resolve or reject after the first leaves the settlement unchanged. |
| `Api.ServeStale` | src/common/lib/api.ts:83-86 | Right after the cache read, nothing is stored. The callback has been called exactly when skipCache is false and the read map has id, and then once, with the cached entry, which is also the promise's value. Otherwise the promise is still pending. |
| `Api.Revalidate` | src/common/lib/api.ts:89-126 | When the request settles, the callback log only grows: by the fresh snapshot exactly when there is an answer, by nothing on a transport failure. The promise is settled afterwards, and an earlier settlement stays. The stored map changes only for an answer without error, and then becomes the read map with id mapped to the snapshot. |
| `Api.SwrRun` | src/common/lib/api.ts:79-127 | A whole call calls the callback at most twice, and at least once when there is an answer. The promise always settles. A map is stored exactly when the answer has no truthy error, and its keys are the read keys plus id. |
| `Api.StaleServedFirst` | src/common/lib/api.ts:83-86 | If skipCache is false and the read map has id, the first callback argument and the promise's value are the cached entry, whatever the fetch gives. |
| `Api.NoStaleWithoutEntry` | src/common/lib/api.ts:83-126 | With skipCache set or no entry for id, the callback sees only the fresh snapshot, and the promise resolves with it. On a transport failure the callback is never called and the promise rejects with the failure. |
| `Api.CallbackOrder` | src/common/lib/api.ts:84-123 | The callback is called at most twice. Twice means the cached entry first and then the fresh snapshot. |
| `Api.AlwaysSettles` | src/common/lib/api.ts:81-127 | Once the request has a result, the promise has settled. |
| `Api.ErrorNotCached` | src/common/lib/api.ts:92-123 | An answer with a truthy error stores nothing, and the last callback argument is the error snapshot with exactly id, name, connector type and error. |
| `Api.SuccessStoresReadMap` | src/common/lib/api.ts:79-121 | An answer without error stores the map read at the start with id mapped to the full snapshot. Every other key keeps its read-time value. |
| `Api.TransportFailureNoWrite` | src/common/lib/api.ts:89-126 | A transport failure stores nothing, and the only callback argument, if any, is the cached entry. |
| `Api.SwrGetAccountInfo.Callback` | src/common/lib/api.ts:84 | Each callback call appends its argument to the log of what the caller was given. |
| `Api.SwrGetAccountInfo.Resolve` | src/common/lib/api.ts:85 | resolve settles the promise only if it has not settled yet. |
| `Api.SwrGetAccountInfo.Reject` | src/common/lib/api.ts:126 | reject settles the promise only if it has not settled yet. |
| `Api.SwrGetAccountInfo.Start` | src/common/lib/api.ts:79-89 | The call reads the whole cache into accountsCache. Its callback log and settlement are then those of ServeStale: the cached entry when present and not skipped, nothing otherwise. |
| `Api.SwrGetAccountInfo.Complete` | src/common/lib/api.ts:90-126 | The callback log and settlement become those of SwrRun on the map read at the start. The shared cache becomes the stored map when there is one, and is otherwise unchanged. |
| `Api.SwrGetAccountInfo.Run` | src/common/lib/api.ts:74-128 | A call run with nothing in between matches SwrRun on the cache's contents at the start: callbacks, settlement and stored map. |
| `Api.InterleavedRefresh` | src/common/lib/api.ts:79-121 | Two good refreshes of different ids both read the cache, then both write. The final cache is the initial map with only b's snapshot added. a's fresh snapshot is lost, and a keeps its initial value or stays absent. |
| `Api.SequentialRefresh` | src/common/lib/api.ts:79-121 | The same two refreshes run one after the other leave both fresh snapshots in the cache. |

## Left out

- Message transport: `getAccountInfo` forwards to a bus module that is not part of this model. So the request's result is an input (`FetchResult`), either a transport rejection or an `AccountInfoRes` answer. How the bus turns the action's envelope into that answer is not modelled.
- The `AccountInfoRes` answer follows its declared shape, with name, connector type, info and balance always present. Fields that a handler omits at run time (the action never sets `connectorType`) are not modelled as undefined. The balance currency, which the interface declares required, is modelled as optional so that "absent" can be stated. The avatar URL, error, pubkey and lightning address are optional as declared.
- Callback: the callback is assumed present (its type requires it), so the `if (callback)` guards are not modelled. A callback that throws is not modelled either.
- Cache lookup: `accountsCache[id]` is modelled as key membership. Ids that name members of JavaScript's object prototype are not modelled.
- Js.ParseInt: models only an optional sign followed by decimal digits. Leading whitespace, `0x` prefixes, and numbers beyond the integers (fractions, Infinity) are not modelled, because balances are integers. Integers are exact and unbounded here, while JavaScript numbers are doubles: parseInt rounds values above 2^53 (`parseInt("9007199254740993")` is 9007199254740992), so the exact round trip in Js.ParseIntOfToString holds in JavaScript only up to 2^53, and JavaScript prints integers from 1e21 up in exponent notation rather than as the decimal text `Js.Decimal` gives.
- Persistence: the cache is modelled as an `AccountsCache` object read and replaced in one step each. The storage functions are not part of this model, and neither is `removeAccount`, whose cache half lives there. In the model the cache read never fails, although in the code a rejected `getAccountsCache()` rejects the returned promise before any callback or request. The write is one synchronous step, although in the code `storeAccounts` is not awaited, so its failure never reaches the caller.
- Asynchrony: scheduling is not modelled. A call is two steps (`Start`, `Complete`), and interleavings are written out explicitly. The `Promise.all` fan-out in the action becomes two independent call outcomes.
- The other one-line request wrappers in the client API (accounts, invoices, settings, nostr and mnemonic calls) are plain forwarding to the bus and are not modelled.
- `console.error` logging in the action's catch block is not modelled.

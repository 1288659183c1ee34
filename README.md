# random-vrf-app web3 core in Dafny

This project models the browser-side state logic of a client for a verifiable
random function (VRF) service. The client asks a request contract for a random
number, then shows progress and the number in the UI. Two process-wide stores
hold what the UI shows:

- `randomNumberStore` (`src/lib/web3/contracts.ts`). `requestRandomNumber`
  resets the store and submits the request transaction. It records the
  transaction hash, then queries the `RandomnessRequested` logs that the
  request contract emitted in the receipt's block. It records the request id
  of the first such log, whoever requested it, and starts a listener for it.
  If that block has no such log, or any step throws, the store gets an error
  message. The listener
  (`listenForRandomness`) scans each batch of `RandomnessReceived` logs. It
  delivers the first log carrying its request id and then unwatches.
  `formatRandomNumber` shortens a number for display.
- `walletStore` (`src/lib/web3/wallet.ts`). `connectWallet`,
  `disconnectWallet` and `initWallet` update the session.
  `formatAddress` shortens an address.

Modules:

- `Outcomes` (`outcomes.dfy`): JavaScript `null` as `Option`, what a
  `catch` receives (`Thrown`), and the settled result of an awaited call
  (`Outcome`).
- `JsText` (`jstext.dfy`): `substring` and `slice` with JavaScript's
  index clamping, and `BigInt.prototype.toString()` in radix 10.
- `Contracts` (`contracts.dfy`): the store is the class `RandomNumberStore`
  with one `state` field. Each `update` call of the source is one assignment
  to that field. One `watchEvent` subscription is a `RandomnessListener`
  object. It holds the request id its callback captured and a `listening`
  flag that `unwatch()` clears.
- `Wallet` (`wallet.dfy`): the store is the class `WalletStore`.

Each state-changing method is proved equal to a pure function of the old
state and the external outcomes (`RequestOutcome`, `AfterBatch`,
`ConnectOutcome`, `DisconnectOutcome`, `InitOutcome`). It is also proved to
keep the store's invariant. The properties are lemmas about those functions.

Every wallet and chain call is an input. Its outcome (the value it returned,
or the `Error` or other value it threw) is a parameter. So are the `Date.now()`
timestamps.

Behaviours of the source that the model shows:

- A listener compares logs with the request id it captured
  (contracts.ts:134), not with the store's current id. Starting a new
  request (contracts.ts:38-49) does not unwatch older listeners. So a late
  `RandomnessReceived` log for an earlier request ends the new request's
  wait and shows the earlier request's randomness under the new request's
  id. `StaleListenerOverwritesNewRequest` proves this for all inputs.
  `StaleListenerScenario` shows it on concrete objects. If the late log
  arrives while the new request is still being submitted,
  `StaleDeliveryDuringRequest` shows the result: a consistent state that
  waits for the new id and already shows the old randomness.
- The `RandomnessRequested` query (contracts.ts:76-88) filters only by
  contract, event and block, not by requester or transaction, and the code
  takes the first log (contracts.ts:91). So the recorded id can belong to
  another requester's request in the same block. The listener then waits
  for, and shows, that other request's randomness.
  `RecordedIdIgnoresRequester` proves the recorded id does not depend on
  who requested it.
- A missing `RandomnessRequested` log is an error ("Request event not found
  in transaction logs").
- A failed disconnect leaves the session unchanged.
- A failed connect leaves `address` and `isConnected` as they were.

## Model

| member | source | states |
|---|---|---|
| `Contracts.RandomNumberStore.constructor` | src/lib/web3/contracts.ts:23-33 | the store starts with both flags false and every field null, which is consistent |
| `Contracts.StartedForgetsPrevious` | src/lib/web3/contracts.ts:38-49 | starting a request publishes the same state whatever came before: the initial state with `isRequesting` true and the request time set |
| `Contracts.SubmittedChangesOnlyTxHash` | src/lib/web3/contracts.ts:69 | recording the submission sets `txHash` and leaves every other field unchanged |
| `Contracts.RequestedStartsWaiting` | src/lib/web3/contracts.ts:90-97 | recording the request id sets it, switches from requesting to waiting, and leaves every other field (`txHash` included) unchanged |
| `Contracts.FailedKeepsProgress` | src/lib/web3/contracts.ts:104-111 | a failure clears both busy flags and sets the error to the `Error`'s message or to "Failed to request random number". `txHash`, `requestId` and every other field are kept |
| `Contracts.RequestSettles` | src/lib/web3/contracts.ts:36-113 | a finished request never leaves `isRequesting` true. It waits if and only if every step succeeded and a log was found, and it has an error if and only if it does not wait. The response fields stay null, and the result is consistent |
| `Contracts.RequestSuccess` | src/lib/web3/contracts.ts:90-100 | on success, `requestId` is the first log's id and `txHash` is the submission hash |
| `Contracts.RequestFailure` | src/lib/web3/contracts.ts:51-111 | on failure, `requestId` is null. `txHash` is kept exactly when the submission went through. The error names the failing step: "Wallet not connected", a thrown message or the fallback, or "Request event not found in transaction logs" |
| `Contracts.RequestIsolatesPrevious` | src/lib/web3/contracts.ts:38-49 | the outcome of a request does not depend on the state it started from |
| `Contracts.RandomNumberStore.RequestRandomNumber` | src/lib/web3/contracts.ts:36-113 | the sequence of updates leaves exactly `RequestOutcome` of the old state and keeps the store consistent. It returns a fresh listening listener for the recorded id exactly when the request waits and the watch was set up |
| `Contracts.RandomNumberStore.ListenForRandomness` | src/lib/web3/contracts.ts:116-155 | a listener for the given id is created exactly when setting up the watch did not throw |
| `Contracts.RandomnessListener.constructor` | src/lib/web3/contracts.ts:121-151 | a new subscription captures its request id and is listening |
| `Contracts.FirstMatch` | src/lib/web3/contracts.ts:133-134 | the index found holds a log with the id and no earlier log has it. None means no log in the batch has the id |
| `Contracts.RandomnessListener.OnLogs` | src/lib/web3/contracts.ts:132-148 | an unwatched listener changes nothing. Otherwise the store becomes `AfterBatch` of the old state, and the listener stops listening exactly when a log matched. The store stays consistent |
| `Contracts.DeliveredCompletes` | src/lib/web3/contracts.ts:135-143 | a delivered log ends the wait. The number shown is present exactly when the log's randomness is, and it is decimal digits that read back as that randomness. The response hash and time are set, other fields are unchanged, and delivering the same log twice is the same as once |
| `Contracts.BatchIgnoresOtherRequests` | src/lib/web3/contracts.ts:133-134 | a batch with no log for the listener's id leaves the state unchanged |
| `Contracts.BatchStopsAtFirstMatch` | src/lib/web3/contracts.ts:144-147 | logs after the first match have no effect on the state |
| `Contracts.BatchPreservesConsistent` | src/lib/web3/contracts.ts:132-148 | processing a batch keeps the store consistent |
| `Contracts.StaleListenerOverwritesNewRequest` | src/lib/web3/contracts.ts:116-148 | after a new request is confirmed under another id, a late log for the old id still ends the new request's wait. It shows the old randomness under the new id |
| `Contracts.StaleDeliveryDuringRequest` | src/lib/web3/contracts.ts:38-148 | a late log for the old id, delivered between the new request's reset and its confirmation, leaves a consistent state that waits for the new id and already shows the old randomness |
| `Contracts.RecordedIdIgnoresRequester` | src/lib/web3/contracts.ts:76-94 | the request's outcome depends only on the ids of the block's `RandomnessRequested` logs, not on their requesters. On success the recorded id is the first log's, whoever requested it |
| `Contracts.StaleListenerScenario` | src/lib/web3/contracts.ts:38-148 | on concrete objects: listener "0xa1" survives request "0xb2" and its log sets "7" as the number shown for "0xb2" |
| `Contracts.FormatRandomNumber` | src/lib/web3/contracts.ts:158-169 | null or empty input gives "". Up to 12 characters is returned unchanged. Longer input gives 15 characters: the input's first six, "...", and the input's last six |
| `Contracts.FormatRandomNumberIdempotent` | src/lib/web3/contracts.ts:158-169 | formatting an already formatted number gives it back unchanged |
| `JsText.SubstringInBounds` | src/lib/web3/contracts.ts:165-166 | within bounds, `substring(a, b)` and `substring(a)` select exactly `s[a..b]` and `s[a..]` |
| `JsText.DecimalString` | src/lib/web3/contracts.ts:135 | `toString()` of a BigInt is a non-empty string of decimal digits whose first digit is 0 only for zero, and it is one character long exactly for values below ten |
| `JsText.DecimalRoundTrip` | src/lib/web3/contracts.ts:135 | the decimal text of a value reads back as that value |
| `JsText.SlicePrefix` | src/lib/web3/wallet.ts:63 | `slice(0, n)` is the first n characters, or the whole string when it is shorter |
| `JsText.SliceSuffix` | src/lib/web3/wallet.ts:63 | `slice(-n)` is the last n characters, or the whole string when it is shorter |
| `Wallet.WalletStore.constructor` | src/lib/web3/wallet.ts:13-18 | the session starts empty, not connected, not connecting, with no error |
| `Wallet.ConnectStartedFrame` | src/lib/web3/wallet.ts:22 | beginning a connect sets `isConnecting` and clears the error; `address` and `isConnected` are unchanged |
| `Wallet.ConnectNeverStaysConnecting` | src/lib/web3/wallet.ts:20-46 | a finished connect never leaves `isConnecting` true. It has no error if and only if the connector returned at least one account |
| `Wallet.ConnectSuccess` | src/lib/web3/wallet.ts:28-34 | a connect with accounts shows the first account and marks the session connected |
| `Wallet.ConnectFailure` | src/lib/web3/wallet.ts:35-45 | a connect with no accounts or a throw keeps `address` and `isConnected`. The error is "No accounts found", the `Error`'s message, or "Failed to connect wallet" |
| `Wallet.WalletStore.ConnectWallet` | src/lib/web3/wallet.ts:20-46 | the two updates leave exactly `ConnectOutcome` of the old state, with `isConnecting` false and the session invariant kept |
| `Wallet.DisconnectClearsOnSuccess` | src/lib/web3/wallet.ts:48-59 | a successful disconnect clears `address` and `isConnected` and nothing else. A failed one changes nothing |
| `Wallet.WalletStore.DisconnectWallet` | src/lib/web3/wallet.ts:48-59 | the store becomes `DisconnectOutcome` of the old state and keeps the session invariant |
| `Wallet.InitOnlyWhenConnected` | src/lib/web3/wallet.ts:67-77 | start-up changes the state only for a connected account with an address, and then shows that address as connected. The error and `isConnecting` are untouched |
| `Wallet.WalletStore.InitWallet` | src/lib/web3/wallet.ts:67-77 | the store becomes `InitOutcome` of the old state and keeps the session invariant |
| `Wallet.SessionKeepsAddress` | src/lib/web3/wallet.ts:20-77 | no operation marks the session connected with an empty address |
| `Wallet.FormatAddress` | src/lib/web3/wallet.ts:61-64 | "" for an empty address. Otherwise `slice(0, 6)`, "...", and `slice(-4)` of the input, with JavaScript clamping for short input |
| `Wallet.FormatAddressLengths` | src/lib/web3/wallet.ts:61-64 | an address of ten or more characters is shown as 13 characters. One of at most four characters appears whole on both sides of "..." |

## Left out

- `src/lib/web3/config.ts` holds only constants and a `createConfig` library call. The contract addresses and chain are not part of this model.
- The wagmi and ethers calls (`getWalletClient`, `writeContract`, `waitForTransactionReceipt`, `getPublicClient`, `getLogs`, `watchEvent`, `connect`, `disconnect`, `getAccount`, `parseEther`, the injected connector) are external. Each is a parameter: the value it returned or what it threw. The call arguments are not modelled: the `'0x'` parameters, the 100000 callback gas limit, the 1 wei value, the contract addresses and the log block range.
- The ABI JSON imports and `console.error` logging are left out.
- `Date.now()` is a parameter of each operation that reads it.
- Svelte store subscription is left out. Each store is one mutable field, and an `update` call is an assignment to it.
- Asynchronous interleaving is left out. One `requestRandomNumber` or `connectWallet` call runs as one method, so no other callback can run between its updates. Each intermediate state is still stated by the step functions (`Started`, `Submitted`, `Requested`, `Failed`, `ConnectStarted`). One batch passed to `onLogs` is one `OnLogs` call. After `unwatch()` no further batch reaches the callback.
- Decoded log arguments are taken to be present. The case of an undecodable `requestId` (`undefined` at run time) is not modelled. An undecodable `randomness` is modelled.
- String lengths count Unicode scalar values, not UTF-16 code units. The values formatted here (decimal numbers and hex addresses) are ASCII, where the two agree.
- The session invariant after a connect relies on the connector's `0x${string}` address type, so an account is never the empty string. The code itself does not check it.

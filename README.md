# Crypto Legacy Box client, modelled in Dafny

Crypto Legacy Box is a React client for an inactivity vault on Base mainnet (chain id 8453).
The vault is a contract that pays its balance to a beneficiary unless its owner keeps sending a
`keepAlive` heartbeat. The client's one component, `App` in `src/App.jsx`, does the following:

- tracks the injected wallet's account and network;
- builds a contract client only when a signer is present on network 8453;
- polls the vault's remaining time, balance, owner and beneficiary every 10 seconds;
- offers two writes, `keepAlive` and `setBeneficiary`, reporting their progress in a status
  slot and an error slot.

The model is split by concern:

- `wrappers.dfy`: `Option`, standing for a nullable state slot.
- `js_number.dfy`: the two JavaScript conversions the component depends on. They are
  `parseInt(text, 16)`, which reads the `chainChanged` payload, and `Number#toString` on a
  non-negative integer, which the `formatTimeLeft` template applies. Both follow the ECMAScript
  algorithms. Each is proved to round-trip with its inverse.
- `time_format.dfy`: `formatTimeLeft`. The split into days, hours, minutes and seconds
  recomposes the count, each component is in range, and the display is injective.
- `session.dfy`: the two slots the contract gate reads (signer and network), the wallet events
  that write them, and the gate predicate. Lemmas show that after any sequence of events the
  gate depends only on the latest event that wrote each slot.
- `vault_app.dfy`: the component as a class. Its fields are the `useState` slots. Its methods
  are the handlers, the connect action, the two write actions and React's effects:
  - An effect's body runs only when a dependency changed by identity, as React does. The
    dependencies seen at the effect's last run are kept in fields.
  - Object identities come from serial numbers (`nextSerial`). These cover signers from
    `getSigner()`, contracts and interval ids.
  - The browser's live timers are the set `liveIntervals`.
  - Every wallet, chain or timer outcome is a parameter: `ConnectOutcome`, `Reads` and
    `Submission`. This makes each handler one atomic update.
  - A ghost trace `effects` records, in order, every request sent and every status or error
    shown.

## Model

| member | source | states |
|---|---|---|
| JsNumber.ParseInt16 | src/App.jsx:32 | `parseInt(chainIdHex, 16)`: a number only when the text holds a hex digit, and a negative one only when it holds a minus sign |
| JsNumber.ParseInt16Quantity | src/App.jsx:31-33 | `parseInt(text, 16)` reads back exactly the id a wallet announces as a "0x" quantity, for every id |
| JsNumber.ParseInt16ReadsQuantity | src/App.jsx:31-33 | the same holds with any leading white space and any trailing text that does not start with a hex digit |
| JsNumber.ParseInt16BaseChain | src/App.jsx:6 | the payload "0x2105" selects network 8453, the Base chain id |
| JsNumber.ParseInt16NoDigits | src/App.jsx:31-33 | a payload without any hex digit yields NaN |
| JsNumber.HexValueOfDigits | src/App.jsx:31-33 | the hex numeral of n has value n |
| JsNumber.ToDecimalString | src/App.jsx:104 | the numeral the template prints for a count: at least one digit, all decimal digits, no leading zero |
| JsNumber.DecimalRoundTrip | src/App.jsx:104 | the numeral the template prints for a count reads back as that count |
| JsNumber.ToDecimalStringInjective | src/App.jsx:104 | distinct counts print as distinct numerals |
| TimeFormat.Split | src/App.jsx:99-103 | days, hours, minutes and seconds recompose the count; hours < 24, minutes and seconds < 60 |
| TimeFormat.SplitUnique | src/App.jsx:99-103 | the split is the only decomposition with those bounds |
| TimeFormat.Render | src/App.jsx:104 | the display is exactly the template `${d}d ${h}h ${m}m ${s}s` over the four printed components |
| TimeFormat.FormatTimeLeft | src/App.jsx:99-105 | `formatTimeLeft`: the template over the code's own divisions, `Math.floor(seconds / 86400)`, `Math.floor((seconds % 86400) / 3600)`, `Math.floor((seconds % 3600) / 60)` and `seconds % 60` |
| TimeFormat.FormatTimeLeftExample | src/App.jsx:99-105 | 90061 seconds is split as 1, 1, 1, 1 and displayed as "1d 1h 1m 1s" |
| TimeFormat.ComponentInjective | src/App.jsx:104 | equal renderings of one "<n><unit>" component have equal counts and equal remainders |
| TimeFormat.RenderInjective | src/App.jsx:104 | distinct durations render differently |
| TimeFormat.FormatTimeLeftInjective | src/App.jsx:99-105 | distinct remaining times never show the same text |
| WalletSession.WrongNetwork | src/App.jsx:150 | the banner condition `networkId !== BASE_CHAIN_ID`: shown while the network is unknown (null) and after a NaN payload; hidden exactly on 8453 |
| WalletSession.GateOpen | src/App.jsx:64 | the gate condition `signer && networkId === BASE_CHAIN_ID`: never open while the banner shows; without the banner, open exactly when there is a signer |
| WalletSession.Step | src/App.jsx:29-42 | the slot writes of the network query, `chainChanged`, `accountsChanged` and a granted connect (lines 52-55): each event rewrites exactly the slot it carries evidence for and leaves the other alone |
| WalletSession.ReplayAppend | src/App.jsx:31-42 | replaying one more event is one more step |
| WalletSession.ReplayConcat | src/App.jsx:31-42 | replaying two event sequences in a row is replaying their concatenation |
| WalletSession.ReplayIsLatest | src/App.jsx:31-42 | after any events, each slot holds what the latest event writing it wrote |
| WalletSession.GateFollowsLatest | src/App.jsx:63-64 | the gate is open after any events iff the latest signer event left a signer and the latest network event wrote 8453 |
| WalletSession.LatestSignerIgnoresInitial | src/App.jsx:34-41 | once an event has set the signer slot, its earlier value no longer matters |
| WalletSession.LatestNetworkIgnoresInitial | src/App.jsx:29-33 | once an event has set the network slot, its earlier value no longer matters |
| WalletSession.HistoryIndependent | src/App.jsx:63-70 | events that set both slots leave the same state and gate verdict, whatever history came before |
| WalletSession.DisconnectClosesGate | src/App.jsx:38-40 | an empty account list closes the gate on any network |
| WalletSession.SwitchAwayClosesGate | src/App.jsx:31-33 | a chain change to any id other than 8453 closes the gate, with or without a signer |
| VaultApp.TextInjective | src/App.jsx:44-133 | the status and error texts of the component are pairwise distinct, so each message is told apart by what is displayed |
| VaultApp.App.constructor | src/App.jsx:9-46 | initial slots ("0" balance, 0 time left, empty texts, nulls); with a wallet, the network query; without one, the "No Ethereum wallet detected." error |
| VaultApp.App.OnNetworkDetected | src/App.jsx:29 | the provider's answer sets the network slot and nothing else |
| VaultApp.App.OnChainChanged | src/App.jsx:31-33 | `chainChanged` sets the network slot to `parseInt(hex, 16)` and nothing else |
| VaultApp.App.OnAccountsChanged | src/App.jsx:34-41 | a non-empty list sets the first address and a new signer; an empty one clears both; nothing else changes |
| VaultApp.App.AdoptAccount | src/App.jsx:36-37 | sets the address and a fresh signer object |
| VaultApp.App.ConnectWallet | src/App.jsx:49-60 | granted accounts: first address, a new signer, "Wallet connected."; empty grant: no change; refusal or missing provider: "Wallet connection failed." and no other change; the requests sent in each case |
| VaultApp.App.GateEffect | src/App.jsx:63-70 | runs only when signer or network changed; then a new contract over the current signer iff signer present and network 8453, otherwise none |
| VaultApp.App.LoadContractData | src/App.jsx:73-89 | no contract: nothing happens; all four reads succeed: the four displayed fields are replaced together; any read fails: they stay and the error is shown |
| VaultApp.App.PollerEffect | src/App.jsx:91-97 | runs only when the contract changed; clears the previous interval; with a contract, refreshes at once and arms exactly one new interval |
| VaultApp.App.ClearInterval | src/App.jsx:95 | the previous timer is no longer live |
| VaultApp.App.SetInterval | src/App.jsx:94 | one new timer, under a fresh id, is the only live one |
| VaultApp.App.Commit | src/App.jsx:63-97 | after both effects, a contract exists iff the gate is open and exactly one timer is live when there is a contract, none otherwise; whenever the contract changed, the previous timer is no longer live; a new contract is refreshed at once (snapshot, error slot and requests); a cleared or unchanged contract leaves the snapshot and the trace as they were, and an unchanged one the error slot too; from a settled state the contract and the live timers stay |
| VaultApp.App.OnIntervalTick | src/App.jsx:94 | a live timer's tick is one refresh through the contract its closure captured |
| VaultApp.App.SendKeepAlive | src/App.jsx:107-118 | no contract: nothing; confirmed: "keepAlive successful." and exactly one refresh; any failure: "keepAlive failed." with the pending status left on display |
| VaultApp.App.Transact | src/App.jsx:109-117 | the pending status, the submission, then the success status and one refresh, or the failure message |
| VaultApp.App.OnBeneficiaryInput | src/App.jsx:170 | the text field's change sets the input slot and nothing else |
| VaultApp.App.SetBeneficiaryAddress | src/App.jsx:120-135 | no contract: nothing; an invalid address: "Invalid address." and nothing sent; otherwise the submission of the input, with success or failure as for keepAlive |
| VaultApp.App.WrongNetworkBanner | src/App.jsx:150-152 | once both effects have run, the banner shows only when there is no contract, and with a signer its absence means there is one |

## Left out

- Rendering: the JSX, the CSS module, the "Not set" fallback and the button label. The wrong-network condition is the only rendered expression modelled.
- i18n: `src/i18n.js` is not part of this model. The message texts are the literals in `src/App.jsx`.
- ethers internals. `ethers.utils.isAddress` is a parameter of `SetBeneficiaryAddress`. `formatEther` is not modelled: the balance is an opaque string. An overflowing `toNumber()` throws inside the try block, so it is one more way a refresh can fail (`ReadFailed`).
- Asynchronous interleaving. Every awaited call is resolved by an outcome parameter, so each handler runs to completion as one step. The model does not capture a stale response arriving after a network or account switch; the code has no guard against one.
- The `loadContractData()` call after a confirmed write is not awaited in the code. The model runs that refresh in the same step.
- Time: the poller's 10-second period is not modelled. A timer firing is the event `OnIntervalTick`, which may come at any point.
- Unmount: the component is modelled while mounted. The effect cleanups on unmount and the wallet listeners, which are never removed, are left out.
- JsNumber.ParseInt16: does not model double precision (integers are unbounded), and reads `-0` as 0.
- JsNumber.ToDecimalString: `Number#toString` switches to exponent notation from 10^21; remaining times that large are not modelled.
- The code keeps two independent message slots, status and error, never clears either, and applies every refresh result unconditionally, with no guard against a stale one. The model does the same.

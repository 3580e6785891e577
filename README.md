# SpaceData marketplace core, modelled in Dafny

SpaceData sells Copernicus satellite products for FLR on the Flare network. This project models the logic that decides what the application does:

- **MetaMask connection manager.** This is a state machine over the connection, network, account and error fields. It keeps listener lists per event. Connecting, switching and adding the Coston chain go through the injected EIP-1193 provider.
- **Flare VRF and FDC client services.**
  - A request id is derived deterministically from the serialised parameters. It is a 32-bit string hash rendered as 64 hex digits.
  - A result cache sits in front of the (simulated) contract calls.
  - A random fallback is used when initialisation or the call fails.
  - The initialise/connecting/error flags guard against re-entrant initialisation.
- **Web app pricing.** This covers the bounding-box area estimate, the data-type, resolution, area, date-range and AI factors, the network fee, the /50000 scaling and rounding to hundredths.
- **Copernicus helpers.**
  - The WKT `POLYGON((…))` rendering of a drawn area and the mock search results of the web client.
  - The back end's token cache, with its one-minute margin.
  - The bounding box of a coordinate list, the STAC search payload, and how search features are shaped.
- **AI analysis service.**
  - The geocoding box around a place.
  - Water-body detection from reverse-geocoded addresses.
  - Extraction and validation of the model's JSON answer, with its default results.

Everything the source leaves to the outside world is a parameter of the model:

- the wallet's and the contracts' answers;
- the token endpoint's response;
- the geocoder's answers;
- the language model's text;
- `Date.now()` and `Math.random()` digits;
- the cosine function.

Objects whose fields the code updates in place are Dafny classes:

- `MetaMaskConnection.Manager`
- `FlareVrf.VrfService`
- `FlareFdc.FdcService`
- `CopernicusSearch.CopernicusClient`

The module-level state of the two `flare-vrf.js` files and of `copernicus_api.py` becomes the fields of those classes. Loops in the source are methods with loop invariants, proved against a specification function:

- the request-id hash;
- the bounding box of the area estimate;
- the thumbnail scan;
- the feature loop;
- the water-body scans.

Where the written specification and the code differ, the model follows the code:

- **Listener keys.** The listener lists are keyed `onConnectionStateChanged`, `onAccountChanged`, `onNetworkStateChanged` and `onError`.
- **Order of the connect checks.** `connect` checks for a missing wallet before the already-connecting guard.
- **Late timeout.** A connection timeout that fires while the account request is pending is not re-checked when the request later succeeds. The later success overwrites the error state.
- **Account after connecting.** Only "connected implies an account" holds. A failed `eth_chainId` after the state became `CONNECTED` leaves the account set while the state is `ERROR`.
- **Mock product name.** The mock product name embeds the date as given, not with its dashes removed.

## Model

| member | source | states |
|---|---|---|
| Provider.MessageOr | python_backend/static/js/metamask-connection.js:297 | a present, non-empty provider message is returned as it is; a missing or empty one gives the fallback |
| RequestId.ToInt32 | python_backend/static/js/flare-vrf.js:185-186 | `hash & hash` keeps the value congruent modulo 2^32 inside the signed 32-bit range |
| RequestId.CongruentInt32Equal | python_backend/static/js/flare-vrf.js:185-186 | two signed 32-bit values congruent modulo 2^32 are equal |
| RequestId.ToInt32Shift | python_backend/static/js/flare-vrf.js:182-187 | wrapping after every step equals wrapping once at the end |
| RequestId.JsStepIsHashStep | python_backend/static/js/flare-vrf.js:184-186 | `(hash << 5) - hash + c` then `& hash` is the 32-bit wrap of 31·hash + c |
| RequestId.Abs | python_backend/static/js/flare-vrf.js:190 | `Math.abs` of a 32-bit hash is at most 2^31 and is the hash or its negation |
| RequestId.DigitChar | python_backend/static/js/flare-vrf.js:190 | each digit below 16 renders as a lower-case hex digit |
| RequestId.DigitValue | python_backend/static/js/flare-vrf.js:190 | a hex digit reads back as a value below 16 |
| RequestId.DigitRoundTrip | python_backend/static/js/flare-vrf.js:190 | reading a rendered digit gives the digit back |
| RequestId.ToHex | python_backend/static/js/flare-vrf.js:190 | `toString(16)` gives a non-empty hex string with no leading zero for a positive number |
| RequestId.PadStart | python_backend/static/js/flare-vrf.js:190 | `padStart` keeps the string as the suffix and fills the front up to the width |
| RequestId.HexRoundTrip | python_backend/static/js/flare-vrf.js:190 | the hex rendering reads back as the number it renders |
| RequestId.HexLengthBound | python_backend/static/js/flare-vrf.js:190 | a number below 16^k renders in at most k digits, so 64-digit padding never truncates |
| RequestId.Pow16 | python_backend/static/js/flare-vrf.js:190 | powers of sixteen are positive |
| RequestId.LeadingZerosValue | python_backend/static/js/flare-vrf.js:190 | leading zeros do not change a hex value |
| RequestId.ZerosValue | python_backend/static/js/flare-vrf.js:190 | a string of zeros is hex and worth zero |
| RequestId.RenderIdShape | python_backend/static/js/flare-vrf.js:189-191 | the request id is "0x" plus 64 hex digits whose value is the absolute hash |
| RequestId.RenderIdDeterminesMagnitude | python_backend/static/js/flare-vrf.js:189-191 | two hashes give the same id exactly when their absolute values agree |
| RequestId.ComputeHash | python_backend/static/js/flare-vrf.js:182-187 | the character loop computes the left fold of the 32-bit 31·h+c recurrence |
| RequestId.GenerateRequestId | python_backend/static/js/flare-vrf.js:177-192 | the id is 66 characters, "0x" then hex digits whose value is the absolute 32-bit hash of the parameters |
| FlareInit.InitAttempt | python_backend/static/js/flare-vrf.js:115-169 | initialisation succeeds exactly when a wallet is present, accounts are granted, the signer (FDC only) is obtained and the chain is Coston or is switched/added to it; the error cases carry the no-wallet message or the provider's message |
| FlareInit.AfterInitialize | python_backend/static/js/flare-vrf.js:108-170 | `initialize` never changes `isConnecting` as seen from outside; it ends initialised exactly when already initialised or, with no attempt in progress, the attempt succeeds; the error is kept by the guards, cleared on success and set to the attempt's message on failure |
| FlareVrf.Normalize | python_backend/static/js/flare-vrf.js:290 | `(abs % 1000) / 1000` lies in [0, 0.999] |
| FlareVrf.FallbackResult | python_backend/static/js/flare-vrf.js:268-303 | the fallback is marked as such, keeps the request id, its 66-character hex value is the absolute value of the hash XOR the clock, and its normalised value is that absolute value mod 1000 over 1000 |
| FlareVrf.MainResult | python_backend/static/js/flare-vrf.js:237-250 | the random value is the 64 digits after "0x" and its normalised value is their value mod 1000 over 1000 |
| FlareVrf.VrfService.constructor | python_backend/static/js/flare-vrf.js:100-102 | an empty cache, not initialised, not connecting, no error |
| FlareVrf.VrfService.BeginInitialize | python_backend/static/js/flare-vrf.js:109-113 | returns true when already initialised and false while connecting, changing nothing; otherwise starts connecting with the error cleared |
| FlareVrf.VrfService.FinishInitialize | python_backend/static/js/flare-vrf.js:115-169 | connecting ends; success sets initialised, failure records the attempt's message |
| FlareVrf.VrfService.Initialize | python_backend/static/js/flare-vrf.js:108-170 | the three cases of `initialize`: already initialised, re-entrant call, full attempt; the flags end as AfterInitialize gives them and the result is whether the service is initialised |
| FlareVrf.VrfService.UseFallbackRandom | python_backend/static/js/flare-vrf.js:268-303 | returns the fallback result and files it in the cache under its request id |
| FlareVrf.VrfService.RequestRandomness | python_backend/static/js/flare-vrf.js:199-261 | a cached id returns the entry unchanged; on a miss the flags become AfterInitialize of the old flags and the replies, the main result is cached when that leaves the service initialised and the fallback otherwise; a fresh value is normalised into [0, 1) |
| FlareVrf.VrfService.ClearCache | python_backend/static/js/flare-vrf.js:308-310 | the cache is empty afterwards |
| FlareVrf.VrfService.GetConnectionStatus | python_backend/static/js/flare-vrf.js:316-322 | reports the three flags as they are |
| FlareFdc.FallbackData | web-app/flare-vrf.js:260-281 | the fallback is completed, marked, keeps the request id and carries "0x" plus 64 random hex digits |
| FlareFdc.FdcService.constructor | web-app/flare-vrf.js:105-107 | an empty cache, no flags set, no purchase sent |
| FlareFdc.FdcService.BeginInitialize | web-app/flare-vrf.js:114-118 | the same re-entrancy guards as the VRF service |
| FlareFdc.FdcService.FinishInitialize | web-app/flare-vrf.js:120-174 | connecting ends; the outcome is the attempt that also awaits the signer |
| FlareFdc.FdcService.Initialize | web-app/flare-vrf.js:113-175 | the three cases of `initialize`; the flags end as AfterInitialize gives them, with the signer awaited, and the result is whether the service is initialised |
| FlareFdc.FdcService.UseFallbackData | web-app/flare-vrf.js:260-281 | returns the fallback and caches it under its request id |
| FlareFdc.FdcService.Purchase | web-app/flare-vrf.js:222-252 | one `purchase` of 0.01 FLR for the request id; a mined transaction gives a pending result with its hash, a failure the fallback; either is cached under the request id |
| FlareFdc.FdcService.PurchaseData | web-app/flare-vrf.js:204-253 | a cache hit changes nothing; on a miss the flags become AfterInitialize of the old flags and the replies (awaiting the signer); without initialisation it falls back with no purchase; otherwise exactly one purchase of 0.01 FLR for the request id is sent and the result is pending iff the transaction was mined |
| FlareFdc.FdcService.ClearCache | web-app/flare-vrf.js:286-288 | the cache is empty afterwards |
| FlareFdc.FdcService.GetConnectionStatus | web-app/flare-vrf.js:294-300 | reports the three flags as they are |
| MetaMaskConnection.NetworkStateFor | python_backend/static/js/metamask-connection.js:259-262 | the network is correct exactly when the chain id equals the required one, otherwise wrong |
| MetaMaskConnection.Without | python_backend/static/js/metamask-connection.js:527-531 | filtering removes the callback, never adds a listener, never lengthens the list |
| MetaMaskConnection.WithoutKeepsOthers | python_backend/static/js/metamask-connection.js:527-531 | every other listener keeps its multiplicity |
| MetaMaskConnection.WithoutAppend | python_backend/static/js/metamask-connection.js:527-531 | filtering distributes over concatenation |
| MetaMaskConnection.WithoutAbsent | python_backend/static/js/metamask-connection.js:527-531 | removing an absent callback leaves the list unchanged |
| MetaMaskConnection.SwitchOutcome | python_backend/static/js/metamask-connection.js:364-425 | a switch request is always sent first; success iff the switch is answered; the add-chain request is sent exactly on code 4902; a rejection (4001) reports the rejection message |
| MetaMaskConnection.Submitted | python_backend/static/js/metamask-connection.js:455-460 | the transactions submitted are a subsequence of the requests |
| MetaMaskConnection.SubmittedAppend | python_backend/static/js/metamask-connection.js:455-460 | submissions of a concatenation are the concatenated submissions |
| MetaMaskConnection.SwitchSubmitsNothing | python_backend/static/js/metamask-connection.js:353-425 | switching networks never submits a transaction |
| MetaMaskConnection.BalanceEffect | python_backend/static/js/metamask-connection.js:327-347 | no request without an account; otherwise one balance request for the account, the answer stored in wei, a failure changing nothing, and no event |
| MetaMaskConnection.Manager.DeliveriesSpec | python_backend/static/js/metamask-connection.js:538-549 | one call per listener, in registration order, each marked as thrown or not, so a throwing listener does not stop the later ones |
| MetaMaskConnection.Manager.EmitSpec | python_backend/static/js/metamask-connection.js:538-549 | every listener registered for the event gets the data, in registration order; an unknown event reaches nobody |
| MetaMaskConnection.Manager.SwitchEffectSpec | python_backend/static/js/metamask-connection.js:353-425 | the switch leaves connection, account, chain, balance, attempts and installation alone; does nothing without a wallet and an account; otherwise the network ends correct exactly when `SwitchOutcome` succeeds, with its requests, and no transaction is submitted |
| MetaMaskConnection.Manager.FailedEffect | python_backend/static/js/metamask-connection.js:287-303 | code 4001 ends DISCONNECTED with the rejection message, any other code ERROR with the provider's message or "Unknown error"; no request follows |
| MetaMaskConnection.Manager.AnnouncedEffect | python_backend/static/js/metamask-connection.js:253-268 | the chain id and the network state from exact comparison are recorded, then the balance request for a held account; three events follow |
| MetaMaskConnection.Manager.ConnectedEffectSpec | python_backend/static/js/metamask-connection.js:253-276 | after the chain id arrives the connection and account are kept and the chain recorded; the network state is the plain comparison unless the automatic switch runs, and then it is correct exactly when the switch succeeds; the balance request comes before the switch requests |
| MetaMaskConnection.Manager.ChainEffectSpec | python_backend/static/js/metamask-connection.js:248-303 | the chain id is requested first; the manager stays CONNECTED exactly when the chain id arrives; a failure ends like a failed connection and keeps the account |
| MetaMaskConnection.Manager.FinishRefusedSpec | python_backend/static/js/metamask-connection.js:287-303 | a refused account request ends DISCONNECTED on 4001 and ERROR otherwise, with its message, both events, and no further request |
| MetaMaskConnection.Manager.FinishNoAccountsSpec | python_backend/static/js/metamask-connection.js:277-285 | an empty account list ends in ERROR with "No accounts found", both events, and no further request |
| MetaMaskConnection.Manager.FinishAccountSpec | python_backend/static/js/metamask-connection.js:244-303 | with an account the first one is held, the chain id requested next, CONNECTED exactly when it arrives; failure keeps the account with the error; success records chain and network state and issues the chain, balance and switch requests in order; attempts and time unchanged |
| MetaMaskConnection.Manager.ConnectEffectSpec | python_backend/static/js/metamask-connection.js:208-305 | without a wallet only the not-installed error; while connecting nothing; otherwise one more attempt stamped with the time, the accounts request first, CONNECTED exactly when an account and the chain id arrive, the first account held, the no-accounts and rejection outcomes, and the chain and network state on success; attempts never decrease |
| MetaMaskConnection.Manager.constructor | python_backend/static/js/metamask-connection.js:38-121 | the initial state is disconnected, or not installed with its error when no MetaMask provider is present, with empty listener lists |
| MetaMaskConnection.Manager.TriggerEvent | python_backend/static/js/metamask-connection.js:538-549 | the loop appends exactly the deliveries `Emit` gives for the event, so a throwing listener does not stop later ones |
| MetaMaskConnection.Manager.On | python_backend/static/js/metamask-connection.js:516-520 | a known event gets the callback appended; an unknown one is ignored |
| MetaMaskConnection.Manager.Off | python_backend/static/js/metamask-connection.js:527-531 | a known event loses every copy of the callback; an unknown one is ignored |
| MetaMaskConnection.Manager.GetState | python_backend/static/js/metamask-connection.js:572-574 | returns the state |
| MetaMaskConnection.Manager.Disconnect | python_backend/static/js/metamask-connection.js:311-321 | disconnected, account and balance cleared, the state change announced |
| MetaMaskConnection.Manager.GetAccountBalance | python_backend/static/js/metamask-connection.js:327-347 | no account: nothing asked; otherwise one balance request for the account, and the answer is stored and returned |
| MetaMaskConnection.Manager.SwitchToRequiredNetwork | python_backend/static/js/metamask-connection.js:353-425 | refuses without a wallet or account, changing nothing; otherwise the new state, requests and deliveries are those of `SwitchEffect`, and the result is true exactly when the network ends correct |
| MetaMaskConnection.Manager.RecoverSwitch | python_backend/static/js/metamask-connection.js:376-424 | after a failed switch request the state, the further requests, the result and the broadcast error are those `SwitchOutcome` gives |
| MetaMaskConnection.Manager.SwitchFailed | python_backend/static/js/metamask-connection.js:404-421 | wrong network with the message recorded and announced |
| MetaMaskConnection.Manager.BeginConnect | python_backend/static/js/metamask-connection.js:209-239 | not installed: error; already connecting: false; otherwise connecting, attempts + 1, timer armed and accounts requested |
| MetaMaskConnection.Manager.FireConnectionTimeout | python_backend/static/js/metamask-connection.js:232-239 | the timer moves a still-connecting manager to the timeout error, otherwise does nothing |
| MetaMaskConnection.Manager.ConnectFailed | python_backend/static/js/metamask-connection.js:287-303 | code 4001 disconnects with the rejection message; any other error is the ERROR state with the provider's message or "Unknown error" |
| MetaMaskConnection.Manager.AnnounceConnected | python_backend/static/js/metamask-connection.js:253-268 | the state, requests and deliveries are those of `AnnouncedEffect` |
| MetaMaskConnection.Manager.CompleteConnection | python_backend/static/js/metamask-connection.js:253-276 | the state, requests and deliveries are those of `ConnectedEffect` |
| MetaMaskConnection.Manager.ChainRefused | python_backend/static/js/metamask-connection.js:287-303 | a failed chain-id request: the state, requests and deliveries of `ChainEffect` for the failure, and the timer cleared |
| MetaMaskConnection.Manager.ChainAnswered | python_backend/static/js/metamask-connection.js:253-276 | an answered chain-id request: the state, requests and deliveries of `ChainEffect` for the answer |
| MetaMaskConnection.Manager.ReadChain | python_backend/static/js/metamask-connection.js:253-303 | true exactly when the chain id arrives; the state, requests and deliveries are those of `ChainEffect` |
| MetaMaskConnection.Manager.FinishConnect | python_backend/static/js/metamask-connection.js:241-305 | the timer is cleared; true exactly when an account and the chain id arrive; the state, requests and deliveries are those of `FinishEffect` |
| MetaMaskConnection.Manager.Connect | python_backend/static/js/metamask-connection.js:208-305 | true exactly when installed, not already connecting, and an account and the chain id arrive; the timer is cleared after an attempt; the state, requests and deliveries are those of `ConnectEffect`, including a timeout that fires while the account request is pending |
| MetaMaskConnection.Manager.ReachRequiredNetwork | python_backend/static/js/metamask-connection.js:437-445 | nothing happens on the required network; otherwise the switch runs as SwitchEffect gives it; it succeeds exactly when already there or the switch succeeds, submits no transaction, and keeps the connection, account and attempts |
| MetaMaskConnection.Manager.SubmitTransaction | python_backend/static/js/metamask-connection.js:449-471 | exactly one `eth_sendTransaction` with `from` set to the account; the hash is returned, or the error is broadcast and rethrown |
| MetaMaskConnection.Manager.SendTransaction | python_backend/static/js/metamask-connection.js:432-472 | refuses when not connected, changing nothing; switches first when on the wrong network and refuses if that fails; otherwise submits exactly this transaction with `from` set to the account; the state, requests and deliveries are given in full and the attempts are unchanged |
| MetaMaskConnection.Manager.CallContract | python_backend/static/js/metamask-connection.js:479-509 | refuses without a wallet; otherwise one `eth_call` whose answer or error is returned |
| MetaMaskConnection.Manager.OnAccountsChanged | python_backend/static/js/metamask-connection.js:135-151 | an empty list disconnects, clears account and balance and announces both changes; otherwise the first account is taken, its balance requested and stored, and the account change announced; the attempts are unchanged |
| MetaMaskConnection.Manager.OnChainChanged | python_backend/static/js/metamask-connection.js:154-172 | records the chain and the network state by exact comparison and announces it; on a wrong chain with auto-switch on, the switch follows as `SwitchEffect` gives; connection, account and attempts are unchanged |
| MetaMaskConnection.Manager.OnProviderConnect | python_backend/static/js/metamask-connection.js:175-188 | records the chain and whether it is the required one |
| MetaMaskConnection.Manager.OnProviderDisconnect | python_backend/static/js/metamask-connection.js:191-201 | disconnected, account and balance cleared, the provider's message recorded |
| Pricing.BoxContains | web-app/pricing.js:42-49 | every vertex lies inside the min/max box and the box stays within the initial extremes |
| Pricing.BoxAttained | web-app/pricing.js:42-49 | each edge of the box is a vertex coordinate or the initial extreme |
| Pricing.BoundingBox | web-app/pricing.js:42-49 | the vertex loop computes the box and every vertex lies inside it |
| Pricing.AreaOf | web-app/pricing.js:31-69 | the area is at least 1 km², and exactly 1 without a polygon or with fewer than 3 vertices |
| Pricing.CalculateAreaInSqKm | web-app/pricing.js:31-69 | the method computes the area function |
| Pricing.BasePriceFor | web-app/pricing.js:7-11 | 10, 15 and 5 FLR for the three products, 10 for anything else |
| Pricing.ResolutionMultiplier | web-app/pricing.js:85-92 | 1.5, 1.3, 0.8 for the three products, 1.0 otherwise |
| Pricing.AreaFactor | web-app/pricing.js:106 | the larger of 0.5 and area/100 |
| Pricing.AiMultiplier | web-app/pricing.js:114 | 1.25 with AI analysis, 1 without |
| Pricing.DiffDays | web-app/pricing.js:142-143 | the number of days counting both ends: the ceiling of the distance in days plus one |
| Pricing.DiffDaysSymmetric | web-app/pricing.js:142 | swapping the dates does not change the day count |
| Pricing.DateRangeFactorOf | web-app/pricing.js:147 | days/7 clamped to [0.5, 2]: 0.5 below 3.5 days, 2 above 14 days, days/7 in between |
| Pricing.DateRangeFactorAsWritten | web-app/pricing.js:135-154 | defined exactly when both dates parse; an invalid date yields NaN |
| Pricing.DateRangeFactor | web-app/pricing.js:135-154 | the intended factor: 1.0 for an invalid date, otherwise the written factor, always in [0.5, 2] |
| Pricing.InvalidDateGivesNaN | web-app/pricing.js:138-154 | an invalid start date gives NaN as written, and 1.0 in the corrected factor |
| Pricing.Round | web-app/pricing.js:126 | `Math.round` lands within half of its argument |
| Pricing.RoundMonotone | web-app/pricing.js:126 | rounding preserves order |
| Pricing.FinalPriceMonotone | web-app/pricing.js:120-126 | adding the fee, scaling by 1/50000 and rounding to hundredths preserves order |
| Pricing.CalculateBasePrice | web-app/pricing.js:80-127 | with the intended date factor (1.0 for an invalid date), the price is non-negative and a whole number of hundredths of FLR |
| Pricing.CalculateBasePriceAsWritten | web-app/pricing.js:80-127 | the price as written is NaN exactly when a date is invalid, and otherwise equals the intended price |
| Pricing.SubtotalPositive | web-app/pricing.js:117 | the product of the factors is positive |
| Pricing.AiNeverLowersPrice | web-app/pricing.js:114-126 | enabling AI analysis never lowers the price |
| Pricing.LargerAreaNeverLowersPrice | web-app/pricing.js:106-126 | a larger area never lowers the price |
| CopernicusWeb.FormatPoints | web-app/copernicus-api.js:29 | each point becomes "lng lat", in order |
| CopernicusWeb.CloseRing | web-app/copernicus-api.js:32-34 | the first point is appended exactly when it differs from the last, so the ring is closed |
| CopernicusWeb.CoordinatesToWkt | web-app/copernicus-api.js:22-38 | the demo square for a missing or empty list; otherwise the text is framed by "POLYGON((" and "))" |
| CopernicusWeb.FirstIndex | web-app/copernicus-api.js:37 | the first occurrence of a separator character, used to read the join back |
| CopernicusWeb.SplitJoin | web-app/copernicus-api.js:37 | splitting the ", " join of comma-free items gives the items back |
| CopernicusWeb.FirstIndexAt | web-app/copernicus-api.js:37 | the first occurrence is the position before which the character does not occur |
| CopernicusWeb.ParseFormatPoint | web-app/copernicus-api.js:29 | reading "lng lat" back gives the [lat, lng] point |
| CopernicusWeb.WktRoundTrip | web-app/copernicus-api.js:22-38 | parsing the polygon gives the closed ring, whose points give back every input coordinate and end on the first |
| CopernicusWeb.StripDashes | web-app/copernicus-api.js:110 | `replace(/-/g, '')` leaves no dash and never lengthens |
| CopernicusWeb.StripDashesAppend | web-app/copernicus-api.js:110 | dash removal distributes over concatenation |
| CopernicusWeb.StripDashesNoop | web-app/copernicus-api.js:110 | a dash-free string is unchanged |
| CopernicusWeb.StripDashesAround | web-app/copernicus-api.js:110 | the dash between two parts disappears |
| CopernicusWeb.StripDashesIsoDate | web-app/copernicus-api.js:110 | "YYYY-MM-DD" becomes "YYYYMMDD" |
| CopernicusWeb.MockResults | web-app/copernicus-api.js:104-153 | two products whose footprint is the WKT of the area, typed as the request, dated by start and end date, the first id built around the dash-free start date and the second around the dash-free end date |
| CopernicusWeb.MockIdEmbedsDate | web-app/copernicus-api.js:110 | the first mock id carries the start date Y-M-D as YMD, twice |
| CopernicusWeb.MockEndIdEmbedsDate | web-app/copernicus-api.js:132 | the second mock id carries the end date Y-M-D as YMD, twice |
| CopernicusSearch.MinOf | python_backend/copernicus_api.py:108-109 | `min` is a lower bound that is attained |
| CopernicusSearch.MaxOf | python_backend/copernicus_api.py:110-111 | `max` is an upper bound that is attained |
| CopernicusSearch.Lats | python_backend/copernicus_api.py:104 | the first coordinate of every point, in order |
| CopernicusSearch.Lngs | python_backend/copernicus_api.py:105 | the second coordinate of every point, in order |
| CopernicusSearch.CoordinatesToBbox | python_backend/copernicus_api.py:81-113 | unreadable input or fewer than 3 points gives the Barcelona box; otherwise every point is inside the box and each edge is attained |
| CopernicusSearch.CollectionFor | python_backend/copernicus_api.py:143-151 | the STAC collection of each product type, Sentinel-2 L2A by default |
| CopernicusSearch.DateRange | python_backend/copernicus_api.py:136-138 | start at 00:00:00Z, a slash, end at 23:59:59Z |
| CopernicusSearch.FirstThumbnail | python_backend/copernicus_api.py:206-210 | no URL iff no asset kind has an href; otherwise the href of the first kind that has one |
| CopernicusSearch.SelectThumbnail | python_backend/copernicus_api.py:205-210 | the scan with `break` returns the first thumbnail, none without assets |
| CopernicusSearch.ShapeFeature | python_backend/copernicus_api.py:213-223 | id and name are the feature id; datetime and properties are copied; cloud cover defaults to 0; the thumbnail is the first one; assets default to empty; bbox and geometry are passed through, absent when absent |
| CopernicusSearch.ShapeResults | python_backend/copernicus_api.py:202-230 | when every feature has an id and properties, one shaped result per feature, in order; otherwise the `KeyError` is caught and there are no results |
| CopernicusSearch.BuildSearch | python_backend/copernicus_api.py:129-187 | authorised iff a token is present; the payload has the collection, the bounding box and the date range |
| CopernicusSearch.CopernicusClient.constructor | python_backend/copernicus_api.py:25-26 | no token, expiry 0, nothing requested |
| CopernicusSearch.CopernicusClient.GetAccessToken | python_backend/copernicus_api.py:27-79 | a token valid for more than a minute is reused; missing credentials give none; otherwise one request, failures keep the cache, success stores the token with expiry now + expires_in·1000, and a body without `expires_in` stores the token, keeps the expiry and returns none; result, cache and request log are those of TokenStepAt |
| CopernicusSearch.CopernicusClient.SearchSatelliteData | python_backend/copernicus_api.py:115-230 | the token cache ends as one `get_access_token` leaves it, and exactly one search is sent, with the built payload and a Bearer header for that token; a failed search or a feature without id or properties gives no results, otherwise every feature is shaped in order |
| AiService.DataTypeName | python_backend/ai_service.py:317-324 | the readable name of each product type, the code itself otherwise |
| AiService.Delta | python_backend/ai_service.py:271-274 | the half-width is 0.5/(len/20) clamped to [0.01, 0.2]: 0.2 up to 50 characters, 0.01 from 1000, undefined for an empty address |
| AiService.BboxPolygon | python_backend/ai_service.py:255-261 | the four corners of the reported bounding box |
| AiService.GeocodeLocation | python_backend/ai_service.py:219-291 | nothing found gives none; a bounding box of four numbers gives its corners; one that raises `TypeError` (None, or a None entry) escapes the bounding-box handler and gives none; with no bounding box, or one that raises `ValueError`, a square of half-width Delta around the place, none for an empty address |
| AiService.SquareCentredOnPlace | python_backend/ai_service.py:276-283 | the default square is centred on the place, and both its sides are twice the half-width |
| AiService.Lower | python_backend/ai_service.py:383 | ASCII lower-casing, letter by letter |
| AiService.Sampled | python_backend/ai_service.py:400-404 | the addresses of the even-indexed points that have one |
| AiService.WaterCount | python_backend/ai_service.py:407-412 | the number of water addresses among them |
| AiService.NearbyPlaces | python_backend/ai_service.py:414-415 | exactly the sampled addresses that differ from the centre's |
| AiService.ScanCentre | python_backend/ai_service.py:382-392 | water iff a keyword occurs in the lower-cased address, and then the name is the address |
| AiService.ScanPoints | python_backend/ai_service.py:397-417 | water and land counts partition the sampled points; the nearby places are collected in order |
| AiService.DetectWaterBody | python_backend/ai_service.py:382-425 | water iff the centre is water or most sampled points are; at most three nearby places, none the centre |
| AiService.ReportedPlaces | python_backend/ai_service.py:424-425 | the first three nearby places |
| AiService.Find | python_backend/ai_service.py:499 | `str.find`: the first index of the character, or -1 |
| AiService.RFind | python_backend/ai_service.py:500 | `str.rfind`: the last index of the character, or -1 |
| AiService.JsonSpan | python_backend/ai_service.py:499-507 | the text from the first '{' to the last '}' when they are in order, otherwise the whole text |
| AiService.DefaultResults | python_backend/ai_service.py:327-343 | the default object has the three required keys and three insights |
| AiService.DefaultLandCoverSumsTo100 | python_backend/ai_service.py:328-332 | the default land cover sums to 100 |
| AiService.ValidateAnalysis | python_backend/ai_service.py:510-519 | an object with all required keys is kept, with the geographic note appended to a list of insights; anything else gives the defaults |
| AiService.AnalyzeSatelliteData | python_backend/ai_service.py:294-529 | without polygon context or a model answer the defaults are returned; the result always has the required keys |

## Left out

- `autoConnect` fires `connect` without awaiting it; it is the same as calling `Connect` after construction.
- Interleaving of concurrent awaits is not modelled: each asynchronous operation runs to completion with its awaited answers as parameters, except the connection timer, whose firing during `connect` is a parameter.
- Event listeners that throw are caught and logged by `triggerEvent`; the model records every delivery and leaves out the logging.
- Listeners receive the live state object, which later updates change; the model delivers a snapshot.
- `on`/`off` with a name inherited from `Object.prototype` (such as "toString") throw in JavaScript; the model ignores every name outside the four listener keys.
- The wei-to-FLR division of `getAccountBalance` is floating point; the model stores the balance in wei.
- `JSON.stringify` of the parameters is not modelled: a request id is computed from the serialised string, given as UTF-16 code units.
- `Math.random`, `Date.now()` and `time.time()` are parameters.
- Logging and `console` output are left out everywhere.
- The catch of `requestRandomness` (python_backend/static/js/flare-vrf.js:257-260) is unreachable in the simulated call and is not modelled.
- Prices for names inherited from `Object.prototype` in `DATA_TYPE_PRICES` are not modelled: the model uses the default of 10 for every unknown name.
- `generateSeed`, `applyRandomVariance`, `calculateFinalPrice`, `updatePriceDisplay` and `formatPrice` are left out. They format for the page, or they call `getRandomPriceVariation`, which web-app/flare-vrf.js does not define.
- The `fetch` paths of copernicus-api.js (`searchSatelliteData`'s request, `getAvailableDataTypes`, `fetchSatelliteData`, `analyzeSatelliteData`) are network calls; only the mock fallback and the WKT conversion are modelled.
- Mock fields that are constants (checksums, product information) are left out of `MockProduct`; `startDate` absent from the parameters is not modelled.
- Pricing.AreaOf: the body computes the source's formula, but the cosine is a parameter, so the contract gives only the lower bound of 1 km² and not the value; floating-point rounding is not modelled.
- CopernicusWeb.WktRoundTrip: holds only for coordinates whose text has no comma or space, as JavaScript renders numbers.
- Coordinates that are not pairs (a Python `IndexError` or a non-list entry) are not modelled.
- `get_product_preview` and `get_product_metadata` are network calls and are left out.
- Geocoder exceptions and timeouts are collapsed into "no answer".
- The prompt text, `generate_chat_response`, `generate_home_assistant_response` and the OpenAI and Nominatim calls themselves are left out; their answers are parameters.
- AiService.Lower: lowers ASCII letters only, unlike Python's Unicode `lower()`.
- AiService.AnalyzeSatelliteData: the JSON parser is a parameter. A parsed list or string that passes the `in` test is not told apart from other invalid answers: in python_backend/ai_service.py its `['insights']` lookup (l.514) raises `TypeError`, the handler at l.522 catches it and l.529 returns the defaults, which is the model's result.
- Other exceptions inside `search_satellite_data` (a search body that is not JSON, an asset that is not a dictionary) are not modelled; the source returns no results for them.

## Findings

| source | as written | input that shows it | evidently intended | confidence | as-written member | corrected member |
|---|---|---|---|---|---|---|
| web-app/pricing.js:135-154 | `new Date` of an unparsable string does not throw, so the `catch` returning 1.0 is never reached and the factor is NaN, which makes the whole price NaN | `calculateDateRangeFactor("not a date", "2024-01-10")` | a date range factor of 1.0 for an invalid date | not executed | Pricing.DateRangeFactorAsWritten | Pricing.DateRangeFactor |

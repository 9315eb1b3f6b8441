# KaspaTrack address tracking, modelled in Dafny

KaspaTrack is a dashboard that shows the Kaspa balance of one tracked address.
The browser side keeps the tracked address, the last fetched portfolio, a
loading flag, an error message and one 30-second auto-refresh interval in a
React context. It talks to the backend through a small HTTP client that wraps
every call in a `{success, data?, error?}` envelope. The Rust backend polls a
Kaspa node for the UTXOs of an address and sums their amounts.

This project models that logic:

- `portfolio_context.dfy` (module `PortfolioContext`): the `PortfolioProvider`
  state as the class `PortfolioStore`. `fetchPortfolio` is split at its
  `await`. The first half (set `loading`, clear `error`, issue the request)
  runs inside `SetTrackedAddress`, `Refresh` and `Tick`. The second half is
  `Complete`, which the environment calls for any pending request in any
  order. `Complete` does not look at which address the request was for, so a
  late answer for an old address still overwrites the state, as in the code.
  The interval is a handle plus the set of live handles; `Valid()` keeps at
  most one live.
- `portfolio_input.dfy` (module `PortfolioInput`): the trim guard of
  `handleSubmit`, the form's `disabled` flags, its label and its error line,
  and the component as the class `AddressForm`.
- `api.dfy` (module `Api`): the base URL default, the endpoint strings, and
  `Envelope`, which maps what `fetch` did to the envelope.
- `dashboard.dfy` (module `Dashboard`): the `stats` cards of `AppContent`,
  including the shortening of the tracked address with `slice`.
- `backend.dfy` (module `Backend`): the network name mapping (both copies),
  the `KASPA_NETSUFFIX` parse with its fallback to 10, the UTXO sum in `u64`,
  the polling task as the class `PortfolioCell` with the method
  `TrackAddress`, and the by-address handler.
- Helpers: `js_text.dfy` (ECMAScript `trim`, `slice`, truthiness),
  `rust_text.dfy` (`to_lowercase`, `u32::from_str`), `decimal.dfy` (decimal
  rendering and reading), `wrappers.dfy` (`Option`, `Result`).

The browser's `fetch`, the environment variables, the Kaspa node and the
clock are parameters. Each React state update is one atomic step.

The model keeps these behaviours of the code, which a reader might not expect:

- A stale answer overwrites newer state. No request is tagged with its
  address. `StaleAnswerWins` shows the case.
- A successful answer does not clear `error`. Only the start of a fetch clears
  it. With two requests in flight, a failure that lands first stays visible
  after a later success.
- `loading` becomes false on every completion, even while another request is
  still pending (`LoadingClearedWhileStillPending`).
- Setting the address that is already tracked does not restart the interval.
  The effect depends on `trackedAddress` and does not re-run for an equal
  value.
- `refreshPortfolio` skips an empty-string address as well as `null`. This is
  JavaScript truthiness.
- The timer does not check for a fetch in flight. A tick always issues a new
  request.

## Model

| member | source | states |
|---|---|---|
| `PortfolioContext.PortfolioStore.constructor` | kaspatrack-frontend/src/contexts/PortfolioContext.tsx:20-23 | the provider mounts with no portfolio, not loading, no error, no address, and no interval |
| `PortfolioContext.PortfolioStore.BeginFetch` | kaspatrack-frontend/src/contexts/PortfolioContext.tsx:25-30 | starting a fetch sets `loading`, clears `error`, and issues exactly one request for the address; `portfolio`, the tracked address and the interval are unchanged |
| `PortfolioContext.PortfolioStore.Complete` | kaspatrack-frontend/src/contexts/PortfolioContext.tsx:30-42 | a success replaces `portfolio` and leaves `error`; a failed envelope sets `error` to `response.error` or the fallback text and keeps `portfolio`; a throw sets "Network error occurred"; `loading` ends false; the request's address plays no part; after unmount only the pending set changes |
| `PortfolioContext.PortfolioStore.Refresh` | kaspatrack-frontend/src/contexts/PortfolioContext.tsx:45-49 | with a truthy tracked address it begins one fetch for it, otherwise no state changes |
| `PortfolioContext.PortfolioStore.Tick` | kaspatrack-frontend/src/contexts/PortfolioContext.tsx:57-62 | a live interval's firing begins one fetch for the tracked address it captured; a cleared handle does nothing |
| `PortfolioContext.PortfolioStore.SetTrackedAddress` | kaspatrack-frontend/src/contexts/PortfolioContext.tsx:51-65 | the address is stored and exactly one fetch for it begins; when the address changed, the old interval is cleared before a new one is installed, and only for a non-empty address; otherwise the interval is kept; at most one handle is live |
| `PortfolioContext.PortfolioStore.Unmount` | kaspatrack-frontend/src/contexts/PortfolioContext.tsx:64 | the cleanup clears the live interval and no handle stays live |
| `PortfolioContext.PortfolioStore.AtMostOneInterval` | kaspatrack-frontend/src/contexts/PortfolioContext.tsx:57-65 | in every valid state at most one interval handle is live, and it is the stored one |
| `PortfolioContext.FailureMessage` | kaspatrack-frontend/src/contexts/PortfolioContext.tsx:35 | the stored error is `response.error` when that is non-empty, else "Failed to fetch portfolio data"; it is never empty |
| `PortfolioContext.FailureMessageFromOutcome` | kaspatrack-frontend/src/contexts/PortfolioContext.tsx:34-36 | for each failed fetch the store shows the HTTP status message, the message of the Error that `fetch` or `json()` threw when it is non-empty, the fallback text when it is empty, or "Unknown error" for a non-Error throw |
| `PortfolioContext.UsePortfolio` | kaspatrack-frontend/src/contexts/PortfolioContext.tsx:83-89 | outside a provider the hook fails with "usePortfolio must be used within a PortfolioProvider"; inside one it returns the context |
| `PortfolioContext.StaleAnswerWins` | kaspatrack-frontend/src/contexts/PortfolioContext.tsx:25-54 | after tracking two addresses, the first request's late answer becomes the shown portfolio while the second address is tracked |
| `PortfolioContext.LoadingClearedWhileStillPending` | kaspatrack-frontend/src/contexts/PortfolioContext.tsx:40-41 | with a tick's request still out, the first completion already clears `loading` |
| `PortfolioInput.Submission` | kaspatrack-frontend/src/components/PortfolioInput.tsx:8-13 | nothing is forwarded iff the text is all whitespace; otherwise the forwarded address is `text.trim()`, non-empty, with no whitespace at either end |
| `PortfolioInput.SubmissionIgnoresPadding` | kaspatrack-frontend/src/components/PortfolioInput.tsx:10-11 | adding whitespace on either side of the text does not change what is forwarded |
| `PortfolioInput.Render` | kaspatrack-frontend/src/components/PortfolioInput.tsx:24-30 | the input is disabled iff loading; the button is disabled iff loading or the trimmed text is empty; the label is "Tracking..." iff loading, else "Track Portfolio"; the error line is shown iff `error` is truthy |
| `PortfolioInput.ErrorShownIffError` | kaspatrack-frontend/src/components/PortfolioInput.tsx:30 | because the store never holds an empty error, the error line is shown exactly when the store has an error |
| `PortfolioInput.EnabledButtonSubmits` | kaspatrack-frontend/src/components/PortfolioInput.tsx:26 | when the button is enabled, a submission forwards an address |
| `PortfolioInput.AddressForm.constructor` | kaspatrack-frontend/src/components/PortfolioInput.tsx:5 | the field starts empty |
| `PortfolioInput.AddressForm.Change` | kaspatrack-frontend/src/components/PortfolioInput.tsx:21 | typing replaces the field's text |
| `PortfolioInput.AddressForm.Submit` | kaspatrack-frontend/src/components/PortfolioInput.tsx:8-13 | an all-whitespace field changes nothing in the store; otherwise the store tracks the trimmed text and exactly one request for it is issued |
| `PortfolioInput.SubmitScenario` | kaspatrack-frontend/src/components/PortfolioInput.tsx:8-13 | submitting "  " changes nothing; submitting " kaspa:xyz " tracks "kaspa:xyz", and its successful answer becomes the portfolio with loading off |
| `Api.BaseUrl` | kaspatrack-frontend/src/services/api.ts:2 | the base URL is `REACT_APP_API_URL` when that is non-empty, else "http://localhost:8080"; it is never empty |
| `Api.HttpErrorMessage` | kaspatrack-frontend/src/services/api.ts:40-41 | the non-OK message is "HTTP error! status: " followed by decimal digits |
| `Api.HttpErrorMessageStatus` | kaspatrack-frontend/src/services/api.ts:41 | the status can be read back from the message, so distinct statuses give distinct messages |
| `Api.ThrownBy` | kaspatrack-frontend/src/services/api.ts:39-44 | no exception reaches the `catch` iff the response is OK and its body parses; otherwise it is the rejection, the HTTP status `Error`, or what `json()` threw |
| `Api.Envelope` | kaspatrack-frontend/src/services/api.ts:29-53 | `success` is true iff no exception reached the `catch`; a success carries the parsed body and no error; a failure carries no data and the thrown message, or "Unknown error" for a non-Error |
| `Api.EnvelopeCases` | kaspatrack-frontend/src/services/api.ts:39-51 | the envelope for an OK parsed body, for a non-OK status, for a rejected fetch with an Error, and for any non-Error throw |
| `Api.NonOkIgnoresBody` | kaspatrack-frontend/src/services/api.ts:40-44 | a non-OK response never reads the body: its envelope depends on the status only |
| `Api.PortfolioEndpoint` | kaspatrack-frontend/src/services/api.ts:57 | the endpoint is "/portfolio/" followed by the address unescaped |
| `Api.PortfolioUpdatesEndpoint` | kaspatrack-frontend/src/services/api.ts:62 | the updates endpoint is the portfolio endpoint followed by "/updates" |
| `Api.TransactionsEndpoint` | kaspatrack-frontend/src/services/api.ts:67 | the endpoint is "/transactions/" followed by the address unescaped |
| `Api.PortfolioEndpointAddress` | kaspatrack-frontend/src/services/api.ts:57 | reading an address off an endpoint inverts the portfolio endpoint builder |
| `Api.PortfolioEndpointRoundTrip` | kaspatrack-frontend/src/services/api.ts:57 | the portfolio endpoint of `a` is read back as `a`, so distinct addresses reach distinct endpoints |
| `Api.TransactionsNotPortfolio` | kaspatrack-frontend/src/services/api.ts:57-67 | no transactions endpoint equals a portfolio or updates endpoint |
| `Api.UpdatesEndpointIsPortfolioEndpoint` | kaspatrack-frontend/src/services/api.ts:62 | addresses are not escaped: the updates endpoint of `a` is the portfolio endpoint of `a + "/updates"` |
| `Api.ApiService.constructor` | kaspatrack-frontend/src/services/api.ts:25-27 | the service's base URL is fixed at construction from the environment value |
| `Api.ApiService.Url` | kaspatrack-frontend/src/services/api.ts:31 | the URL is the base URL followed by the endpoint, exactly |
| `Api.ApiService.Request` | kaspatrack-frontend/src/services/api.ts:29-53 | the envelope is the one for what `fetch` did at `baseUrl + endpoint` |
| `Api.ApiService.GetPortfolio` | kaspatrack-frontend/src/services/api.ts:56-58 | the request goes to `baseUrl + "/portfolio/" + address` |
| `Api.ApiService.GetPortfolioUpdates` | kaspatrack-frontend/src/services/api.ts:61-63 | the request goes to `baseUrl + "/portfolio/" + address + "/updates"` |
| `Api.ApiService.GetTransactions` | kaspatrack-frontend/src/services/api.ts:66-68 | the request goes to `baseUrl + "/transactions/" + address` |
| `Dashboard.HoldingsValue` | kaspatrack-frontend/src/App.tsx:108 | the holdings cards show the amount iff a portfolio with `kaspa_holdings` is present, else "N/A" |
| `JsText.RelativeIndex` | kaspatrack-frontend/src/App.tsx:122 | a `slice` position is clamped into `[0, length]`, a negative one counting from the end |
| `JsText.Slice` | kaspatrack-frontend/src/App.tsx:122 | `slice` returns the characters between the two clamped positions, or the empty string when the start is not before the end |
| `Dashboard.ShortAddress` | kaspatrack-frontend/src/App.tsx:122 | the shortened address is the first `min(8, n)` characters, "...", and the last `min(8, n)` characters |
| `Dashboard.ShortAddressShape` | kaspatrack-frontend/src/App.tsx:122 | the shortened address has at most 19 characters, exactly 19 for addresses of 8 or more, keeping both ends; a short address appears twice in full |
| `Dashboard.TrackedAddressValue` | kaspatrack-frontend/src/App.tsx:122 | the tracked-address value is "Not set" when the address is not truthy, else its shortened form |
| `Dashboard.TrackedAddressNeverNotSet` | kaspatrack-frontend/src/App.tsx:122 | a tracked address never renders as "Not set" |
| `Dashboard.BackendStatus` | kaspatrack-frontend/src/App.tsx:129 | "Connecting..." iff loading, else "Connected" iff a portfolio is present, else "Disconnected" |
| `Dashboard.Stats` | kaspatrack-frontend/src/App.tsx:103-147 | six cards with their titles in display order; both holdings cards share one value; "Last updated" shows iff a portfolio is present; the address card is positive iff the address is truthy and reads "Connected to backend" or "Enter address to track" accordingly; the status card is positive iff a portfolio is present and reads "Real-time updates" or "No connection" accordingly |
| `Dashboard.StatTitlesDistinct` | kaspatrack-frontend/src/App.tsx:103-147 | no two cards share a title, so the titles work as React keys |
| `Dashboard.StatusCardConsistent` | kaspatrack-frontend/src/App.tsx:129-131 | a "Connected" status card is positive; a "Disconnected" one is not and says "No connection" |
| `Backend.NetworkTypeOf` | backend/kaspatrack-backend/src/main.rs:152-158 | the lower-cased name selects Mainnet, Devnet or Simnet exactly when it is that name; anything else selects Testnet |
| `Backend.NetworkTypeWarned` | backend/kaspatrack-backend/src/main.rs:58-67 | the polling task warns exactly for unknown lower-cased names, and then uses Testnet |
| `Backend.NetworkMatchesAgree` | backend/kaspatrack-backend/src/main.rs:152-158 | the task's mapping and the handler's mapping agree on every name |
| `Backend.NetworkNameCaseInsensitive` | backend/kaspatrack-backend/src/main.rs:152 | names that differ only in letter case select the same network |
| `Backend.UpperCaseNameSelects` | backend/kaspatrack-backend/src/main.rs:152-153 | "MAINNET" selects Mainnet |
| `Backend.PaddedNameIsUnknown` | backend/kaspatrack-backend/src/main.rs:58-66 | "mainnet " (with a space) selects Testnet and triggers the warning |
| `Backend.NetSuffix` | backend/kaspatrack-backend/src/main.rs:34 | the suffix is the parsed `u32` when the variable parses, else 10; an unset variable gives 10 |
| `Backend.NetSuffixRendered` | backend/kaspatrack-backend/src/main.rs:148 | any `u32` written in decimal is read back as itself |
| `Backend.TaskNetwork` | backend/kaspatrack-backend/src/main.rs:33-70 | the task's network uses the parsed suffix; a set `KASPA_NETWORK` selects the network its lower-cased value names, with a warning exactly when that name is unknown; an unset one gives Testnet without a warning |
| `Backend.HandlerNetwork` | backend/kaspatrack-backend/src/main.rs:147-159 | the handler's network uses the parsed suffix; a set `KASPA_NETWORK` selects the network its lower-cased value names; an unset one gives Testnet |
| `Backend.SameNetworkEverywhere` | backend/kaspatrack-backend/src/main.rs:147-159 | under the same environment the task and the handler connect to the same network id |
| `Backend.SumFrom` | backend/kaspatrack-backend/src/main.rs:100 | adding the amounts one by one in `u64` gives the accumulator plus the sum, and no step overflows when that fits |
| `Backend.Total` | backend/kaspatrack-backend/src/main.rs:177 | the total equals the sum of all `utxo_entry.amount` values; an empty list gives 0 |
| `Backend.AmountAtMostSum` | backend/kaspatrack-backend/src/main.rs:177 | no single entry's amount exceeds the total |
| `Backend.LastTotalIsLatestSuccess` | backend/kaspatrack-backend/src/main.rs:90-114 | the value the polling leaves is the total of the latest successful answer, after which all answers failed; with no success every answer failed |
| `Backend.PortfolioCell.constructor` | backend/kaspatrack-backend/src/main.rs:48 | the shared holdings start at the default 0 |
| `Backend.PortfolioCell.ApplyAnswer` | backend/kaspatrack-backend/src/main.rs:97-111 | a successful answer overwrites the holdings with its total; an RPC error leaves them unchanged |
| `Backend.TrackAddress` | backend/kaspatrack-backend/src/main.rs:74-114 | a failed connection leaves the holdings for good; otherwise after the answers they hold the latest successful total, or the old value if none succeeded |
| `Backend.GetPortfolioByAddress` | backend/kaspatrack-backend/src/main.rs:140-187 | the reply is 200 iff connecting and the UTXO query both succeed, carrying the requested address verbatim and the total; a failure is a 500 whose body starts with the matching prefix and ends with the error |
| `Backend.HandlerMatchesTask` | backend/kaspatrack-backend/src/main.rs:175-182 | for the same node answer the handler replies with the total the polling task would store |
| `JsText.Trim` | kaspatrack-frontend/src/components/PortfolioInput.tsx:10 | `trim` leaves no whitespace at either end, and gives the empty string iff the input is all whitespace |
| `JsText.TrimIsInfix` | kaspatrack-frontend/src/components/PortfolioInput.tsx:11 | the trimmed text is a piece of the input with only whitespace cut on either side |
| `JsText.TrimPadded` | kaspatrack-frontend/src/components/PortfolioInput.tsx:11 | whitespace added on either side does not change the trimmed text |
| `JsText.TrimIdempotent` | kaspatrack-frontend/src/components/PortfolioInput.tsx:11 | trimming twice is trimming once |
| `RustText.ToLowercase` | backend/kaspatrack-backend/src/main.rs:58 | lower-casing keeps the length and maps each ASCII capital to its small letter |
| `RustText.ParseU32` | backend/kaspatrack-backend/src/main.rs:34 | a string parses iff it is an optional `+` and one or more digits whose value fits in 32 bits, and then yields that value |
| `RustText.ParseRendered` | backend/kaspatrack-backend/src/main.rs:34 | every `u32` in decimal, with or without `+`, parses back to itself |
| `RustText.ParseRejects` | backend/kaspatrack-backend/src/main.rs:34 | the empty string, a lone `+`, a leading `-` and a leading space do not parse |
| `Decimal.FromNat` | kaspatrack-frontend/src/services/api.ts:41 | a number is written as a non-empty string of decimal digits with no leading zero, except for 0 itself |
| `Decimal.ValueOfFromNat` | kaspatrack-frontend/src/services/api.ts:41 | reading a rendered number gives back the number |
| `Decimal.FromNatInjective` | kaspatrack-frontend/src/services/api.ts:41 | distinct numbers render differently |

## Left out

- Timing: the 30-second interval period and the backend's 10-second sleep. A tick is an event the environment delivers.
- Concurrency: Promise and render scheduling, React's batching of `useState`, the backend's `Arc<Mutex<_>>` and `Notify`. Each state update, and each effect run, is one atomic step. `SetTrackedAddress` runs the effect in the same step, so no tick falls between the address change and the interval swap.
- The `/api/portfolio` handler (`main.rs:122-129`) waits on `Notify` and returns a copy of the shared holdings. This is concurrency, so it is not modelled.
- Foreign calls: browser `fetch`, `response.json()`, `connect_client`, `get_utxos_by_addresses_call`, `env::var` and `dotenv` are parameters. Logging and `console.error` are left out, except the fact that the task warns about an unknown network name.
- `Address::constructor` is not part of this model. The handler is modelled for addresses it accepts; what happens for an address it rejects is not captured.
- `request`'s `options` argument and the headers it merges are left out, because no caller passes options.
- The `healthCheck` and `getKaspaPrice` endpoints, the `/health` reply with its timestamp, the `Transaction` type, CORS, route binding and host/port assembly are left out. They are server configuration or are unused by the tracking logic.
- Floats and locale: the `f64` KAS amount in the log line, `toLocaleString()` (shown as `KasAmount`) and `toLocaleTimeString()` (shown as `LastUpdatedNow`).
- Markup, navigation, and the unused module-level `stats` and `activities` arrays of `App.tsx`. The placeholder cards inside `AppContent`'s `stats` are kept as constants.
- The frontend calls `/portfolio/{address}` but the backend serves `/api/portfolio/{address}`. The two tiers therefore do not meet as configured. The model keeps each side as written and does not connect them.
- Backend.Total: requires the sum to fit in `u64` and does not model the overflow panic (debug builds) or wrap-around (release builds) of `.sum()`.
- RustText.ToLowercase: covers ASCII letters only. Rust's Unicode lower-casing of other characters is not modelled.
- Dashboard.ShortAddress: slices Unicode scalar values, while JavaScript slices UTF-16 code units. Addresses outside the Basic Multilingual Plane would be cut differently.
- Api.PortfolioData: `kaspa_holdings` is an integer or absent. JavaScript numbers are floating point, and a `null` member is not represented. A parsed body is a portfolio record or `null`. A falsy non-null body (`0`, `false`, `""`) is not represented. It would fail the `response.data` test and show "Failed to fetch portfolio data".
- Dashboard.HoldingsValue: does not model a `kaspa_holdings` of `null`. Such a value passes the `!== undefined` test, and `null.toLocaleString()` then throws during render. The model cannot represent a `null` amount, so this crash is not captured.
- PortfolioContext.PortfolioStore.Complete: its `Threw` branch ("Network error occurred") is modelled, but the real client never takes it. `request` catches every exception in its own body (`api.ts:29-53`), so `getPortfolio` always resolves to an envelope.

# Cobalt frontend SDK: the OAuth poll session and request shaping

This project models the core of the Cobalt frontend SDK, a thin REST client
(`Cobalt` class) for an integration platform, as it appears in two snapshots:
the TypeScript source `cobalt.ts` and the later compiled `cobalt.js`.

- **The OAuth poll session** (`oauth`). It fetches an authorization URL and
  opens a popup on it. Every 3000 ms it then asks the backend whether the
  application is connected. The session resolves `true` on success and closes
  the popup. It resolves `false` when the user closed the popup. It rejects
  when a query fails. Module `PollSession` holds this state machine twice: as a
  pure fold (`Start`, `Step`, `Run`) over tick events, and as a class `Session`
  whose fields are the promise, the timer and the popup handle. The class's
  methods are proved against `Step`. Both snapshots run the same machine.
- **The connected signal.** Each snapshot reduces the fetched application
  record to one boolean in its own way. In `CobaltJs`, some connected account
  must be an active OAuth2 account. In `CobaltTs`, `connected` must be `true`
  and `reauth_required` must not be. Each module ties its signal to the tick.
- **`connect`.** `CobaltJs.Connect` is the compiled snapshot's dispatch on an
  explicit or implied auth type. `CobaltTs.Connect` is the TypeScript
  snapshot's sequence: fetch the app, then run the OAuth2 session or post the
  key-based save, with a promise that only the first `resolve`/`reject` settles.
- **Request shaping.** This covers base-URL normalisation, the error-status
  test, optional URL segments, paging defaults, the `labels` default and the
  `workflow` unwrap. Each URL builder has a reader that recovers its arguments,
  and a round-trip lemma connects the two.

Modules: `Wrappers` (Option/Result), `Strings` (prefixes, splitting, decimal
integers), `JsValues` (parsed JSON values, truthiness, `.`, `?.`, `??`),
`Http`, `Requests` (shaping written identically in both snapshots),
`PollSession`, `CobaltJs`, `CobaltTs`.

On a failed status query the popup is left open (cobalt.js:184-189), and on
abandonment the session does not close it (cobalt.js:176-181), so a session
can end with the popup open. The record shapes differ between snapshots and
are modelled separately.

The comment above the compiled `connect` (cobalt.js:227) says it throws on an
invalid authentication type, but the code sends any type other than "oauth2"
and "keybased" to the default branch (cobalt.js:236-239). The model follows the
code: `CobaltJs.UnknownTypeIsDefault` proves that such a type behaves exactly
as no type.

## Model

| member | source | states |
|---|---|---|
| `Http.CheckStatus` | cobalt.js:53-58 | a response is an error exactly when 400 <= status < 600, and then its parsed body is thrown; 2xx, 3xx and >= 600 return the body; a failed fetch propagates its error |
| `Http.ReadField` | cobalt.js:140-145 | a request read for one body field (`auth_url` of `getOAuthUrl`, `success` of `keybased`) fails with the fetch's error, throws the body on an error status, and otherwise reads the field, with a TypeError on a null body |
| `Http.NormalizeBaseUrl` | cobalt.js:34-38 | an absent or empty base URL becomes "https://api.gocobalt.io"; one starting with "http://" or "https://" is kept; any other gets "https://" prepended; the result always has one of the two schemes |
| `Http.NormalizeBaseUrlIdempotent` | cobalt.ts:166-170 | normalising an already normalised base URL changes nothing |
| `Http.TokenOrEmpty` | cobalt.ts:171 | the token is the given one, or "" when absent |
| `Http.BearerHeader` | cobalt.js:50 | the authorization header is "Bearer " followed by exactly the token |
| `Requests.GetAppUrl` | cobalt.js:93 | the `getApp` URL starts with the base URL and the application path |
| `Requests.GetAppUrlRoundTrip` | cobalt.ts:241 | the URL selects the slug when it is non-empty, and the list of all applications when it is absent or empty |
| `Requests.ParsePageLimitRoundTrip` | cobalt.js:550 | a `page=…&limit=…` query, with or without a tail, reads back to the integers it was built from |
| `Requests.WorkflowsQueryDefaults` | cobalt.ts:654 | `getWorkflows` sends page `page||1` and limit `limit||100`, so 0 and absent become the defaults and given non-zero values are kept; it adds a slug exactly when it is non-empty |
| `Requests.GetWorkflowsUrl` | cobalt.js:477 | the `getWorkflows` URL starts with the base URL, the workflow path and "?page=" |
| `Requests.GetWorkflowsUrlRoundTrip` | cobalt.js:477 | the URL carries exactly the effective page, limit and slug, and they read back unchanged |
| `Requests.ConfigBody` | cobalt.ts:419-422 | the `config` body always has `labels`: the caller's when given (even empty), `[]` otherwise; slug and config ID are kept |
| `Requests.ConfigBodyIdempotent` | cobalt.js:277 | shaping an already shaped `config` body changes nothing |
| `PollSession.Settle` | cobalt.ts:308 | a pending promise takes the first settlement; a settled one keeps its outcome |
| `PollSession.Start` | cobalt.js:157-162 | a failed URL fetch rejects with its error, with no window opened, no popup and no timer; otherwise the window is opened, the popup handle is present exactly when opening succeeded, and the timer runs with the outcome pending |
| `PollSession.Step` | cobalt.js:162-190 | one tick keeps the session invariant; a cleared timer never fires again; `close()` is called only on a connected tick, which resolves `true`; the popup handle never changes |
| `PollSession.Run` | cobalt.ts:314-340 | a run of ticks keeps the session invariant (timer active exactly while pending; at most one `close()`, and only on success; `false` only with a closed popup handle), and after settlement nothing changes |
| `PollSession.SettlesOnce` | cobalt.js:170-188 | once the outcome settles after some events, the events after them change neither the outcome, the timer (stays cleared), the `close()` count nor the number of queries |
| `PollSession.CloseOnlyOnSuccess` | cobalt.js:168 | a session calls `close()` exactly once when it resolved `true` with a popup handle (even one the user already closed), and never otherwise |
| `PollSession.AuthUrlErrorOpensNothing` | cobalt.js:140-143 | an auth-URL response with an error status makes the session reject with the error body, with no window opened and no timer started |
| `PollSession.NoPopupNeverAbandons` | cobalt.js:176 | with a null popup handle the session never resolves `false` |
| `PollSession.UrlFailureShortCircuits` | cobalt.ts:308-343 | after a failed URL fetch the session stays rejected with that error, never opens a window, never starts the timer and never queries |
| `PollSession.InconclusiveTicksKeepPolling` | cobalt.ts:324-332 | "not connected" ticks with the popup open or absent only add queries: the session keeps polling |
| `PollSession.SucceedsAtTick` | cobalt.ts:317-323 | "connected" on tick n+1 after n "not connected" ticks resolves `true` at that tick, clears the timer, and closes an opened popup exactly once (never without one) |
| `PollSession.AbandonedAtTick` | cobalt.ts:326-331 | when the user has closed the popup, the next "not connected" tick resolves `false`, clears the timer and makes no `close()` call |
| `PollSession.FailsAtTick` | cobalt.ts:334-339 | a failed query on tick n+1 rejects with exactly that error, makes no further query whatever follows, and leaves the popup unclosed |
| `PollSession.Session.constructor` | cobalt.js:155-195 | the session object starts in the state `Start` describes, with the timer period 3000 ms when it runs |
| `PollSession.Session.Tick` | cobalt.js:162-190 | the interval callback changes the object exactly as `Step` describes and keeps its invariant |
| `PollSession.Session.PopupClosedByUser` | cobalt.js:176 | the popup's `closed` flag becomes true when a handle exists; nothing else changes |
| `CobaltJs.IsConnectedIff` | cobalt.js:166 | connected exactly when the record and its `connected_accounts` are present and some account is OAuth2 and active |
| `CobaltJs.OnlyActiveOAuth2Counts` | cobalt.js:166 | expired OAuth2 accounts and key-based accounts of any status never make an application connected |
| `CobaltJs.OtherAccountsDoNotMatter` | cobalt.js:166 | adding an account that is not an active OAuth2 one never changes the signal |
| `CobaltJs.Reduce` | cobalt.js:163-189 | a tick query is "connected" exactly when it succeeded on a connected record, and a failure exactly when it failed, carrying its error |
| `CobaltJs.TickSettlesOnConnectedAccounts` | cobalt.js:164-173 | on a polling session a tick resolves `true` exactly when the fetched record lists an active OAuth2 account, and rejects exactly when the query failed, with that error and no `close()`; a not-connected tick resolves `false` on a closed handle and keeps polling otherwise; a connected tick closes a present handle once |
| `CobaltJs.Connect` | cobalt.js:229-241 | "oauth2" goes to `oauth(slug, payload)`; "keybased" goes to `keybased(slug, payload)`; otherwise a payload (any object) goes to `keybased` and no payload to `oauth(slug)` without parameters |
| `CobaltJs.UnknownTypeIsDefault` | cobalt.js:236-239 | a type string other than the two enum values behaves exactly as no type |
| `CobaltJs.ConnectForwardsPayload` | cobalt.js:231-239 | a given payload always reaches the request: key-based gets it, and OAuth2 only when the type asked for OAuth2 |
| `CobaltJs.KeyBasedResultCases` | cobalt.js:212-217 | the key-based save resolves with the body's `success` flag, throws the body on an error status, and fails with a TypeError on a null body |
| `CobaltJs.DisconnectUrl` | cobalt.js:251 | the `disconnect` URL starts with the base URL, the integration path and the slug |
| `CobaltJs.DisconnectUrlRoundTrip` | cobalt.js:251 | the URL carries the slug, and `auth_type` exactly when a type is given |
| `CobaltJs.GetConfigUrl` | cobalt.js:313 | the `getConfig` URL starts with the base URL, the slug and "/config" |
| `CobaltJs.GetConfigUrlRoundTrip` | cobalt.js:313 | the URL carries the slug, and the config ID exactly when it is non-empty |
| `CobaltJs.GetExecutionsUrl` | cobalt.js:548-550 | the `getExecutions` URL starts with the base URL and the execution path |
| `CobaltJs.GetExecutionsUrlRoundTrip` | cobalt.js:548-550 | the URL carries page 1 and limit 10 when they are absent, and the given values otherwise, 0 included |
| `CobaltJs.UnwrapWorkflow` | cobalt.js:518 | `createWorkflow` returns either the body or its `workflow` member, and a nullish result only when the body itself is nullish |
| `CobaltJs.UnwrapWorkflowCases` | cobalt.js:518 | a body with a non-nullish `workflow` yields that workflow; a body without one is returned unchanged |
| `CobaltJs.Cobalt.constructor` | cobalt.js:33-40 | the client's base URL is the normalised option, so it always has a scheme, and its token is the option or "" |
| `CobaltTs.IsConnectedCases` | cobalt.ts:317 | connected exactly when `connected` is `true` and `reauth_required` is not `true`; an absent or false `connected`, a required re-authorization, or a missing record mean not connected |
| `CobaltTs.Reduce` | cobalt.ts:315-339 | a tick query is "connected" exactly when it succeeded on a connected record, and a failure exactly when it failed, carrying its error |
| `CobaltTs.TickSettlesOnConnectedFlag` | cobalt.ts:316-332 | on a polling session a tick resolves `true` exactly when the record says `connected: true` without `reauth_required`, rejects exactly when the query failed, with that error and no `close()`; a not-connected tick resolves `false` exactly on a closed handle and keeps polling otherwise; a connected tick closes a present handle once |
| `CobaltTs.FromOAuth` | cobalt.ts:359-360 | `connect` passes the OAuth2 session's outcome through: its boolean, its error, or pending when it never settles |
| `CobaltTs.Connect` | cobalt.ts:352-386 | a failed app fetch rejects with no request made; an OAuth2 app runs the session and takes its outcome; any other or missing app posts the key-based save; an error status rejects with the error body; the second `res.json()` then throws, and the catch's `reject` cannot change the outcome; a success resolves with `data.success`; `connect` stays pending only while the session does |
| `CobaltTs.Cobalt.constructor` | cobalt.ts:165-172 | the client's base URL is the normalised option, so it always has a scheme, and its token is the option or "" |

## Left out

- HTTP transport, `fetch` and `res.json()` parsing. Responses are given as a status and an already parsed body. A fetched application is given as a typed record. Malformed bodies are not modelled (for example `connected_accounts` that is not an array).
- `window.open` and the real popup. The popup is a flag for whether a handle was returned, its `closed` flag and a count of `close()` calls.
- `setInterval` timing and the event loop. Each firing of the interval is one event. The 3000 ms period is a recorded constant, not a measured cadence.
- Overlapping in-flight ticks. A query that finishes after the timer was cleared could call `close()` a second time in the source. The model lets a cleared timer fire no further callbacks.
- The `URLSearchParams` query of the auth-URL request: a library encoder.
- The compiler's `__awaiter` helper and the `console.error` calls.
- JavaScript numbers are modelled as integers. `NaN` and fractions in `page || 1` and `${page}` are not covered. Neither is the exponent notation JavaScript renders from 1e21 upward ("1e+21"), nor the loss of precision past 2^53.
- The fixed-URL passthroughs are not modelled separately; their only logic is the status test that `Http.CheckStatus` models: `getAccountDetails`, `updateAccount`, `getApps`, `getConfigs`, `updateConfig`, `deleteWorkflow`, `getExecution` and `createEcosystemLead`.
- `deleteConfig` (cobalt.js:355) has the same optional `/${configId}` segment as `getConfig`, and `getConfigField`, `updateConfigField`, `deleteConfigField` and `getFieldOptions` (cobalt.js:377, 400, 425, 449) have the same kind of optional `?workflow_id=` query. They follow the pattern `CobaltJs.GetConfigUrl` and `CobaltJs.DisconnectUrl` model, and are not modelled separately.
- The TypeScript `createWorkflow` (cobalt.ts:677-696) returns `await res.json()` as it is: the `workflow` unwrap that `CobaltJs.UnwrapWorkflow` models is in the compiled snapshot only. The TypeScript `disconnect` (cobalt.ts:393-405) takes no auth type and returns nothing; it is not modelled.
- The key-based save URL and the request bodies other than `config` are not modelled.
- No lemma relates the two snapshots' connected signals. The source gives no translation between an accounts list and the `connected`/`reauth_required` flags.
- CobaltJs.DisconnectUrlRoundTrip: holds only for slugs without '?'. The slug is interpolated unencoded, so a slug containing '?' makes the URL ambiguous.
- CobaltJs.GetConfigUrlRoundTrip: holds only for slugs without '/', for the same reason.
- cobalt.d.ts (declarations only), docs/js/lunr-data.js and docs/assets/search.js (generated data) are not part of this model.

# Odoo session client, modelled in Dafny

This project models the API client of a mobile front end for the Odoo ERP
server (`OdooAPI`, src/utils/OdooAPI.js). The client holds five fields:
`baseURL`, `sessionId`, `uid`, `db` and `timeout`. It authenticates against the
server and persists the session in the device's key-value store. It restores
that session at start-up and clears it on logout. While authenticated, it
forwards object-service calls as JSON-RPC 2.0 request objects, with method
"call" (section 4 of the JSON-RPC 2.0 specification). It reads the response
objects by checking `error` before `result` (section 5 of the JSON-RPC 2.0 specification).

Files and modules:

- `js_values.dfy` (`JsValues`): the JavaScript values the client handles (`Js`) and the language rules its code relies on, each written out. These are truthiness, `||`, default parameters (they replace only `undefined`), property reads (a TypeError on `null`/`undefined`), array spread, template-literal text, and what a `JSON.stringify`/`JSON.parse` round trip gives back (`Revive`).
- `api_config.dfy` (`ApiConfig`): the configuration constants the call path reads (src/config/api.config.js).
- `key_value_store.dfy` (`KeyValueStore`): the asynchronous key-value store, as a map from key to stored text. A `broken` flag makes every call reject.
- `json_rpc.dfy` (`JsonRpc`): request envelopes and how a reply is read. It also holds a server-side decoder of request objects, which the envelopes are checked against.
- `odoo_session.dfy` (`OdooSession`): the client's behaviour as functions of its fields (`Session`) and of the store. `IsAuthenticated` is `sessionId !== null && uid !== null`, a predicate, so it changes nothing.
- `session_properties.dfy` (`SessionProperties`): lemmas that relate several operations.
- `odoo_api.dfy` (`OdooApi`): the class `OdooAPI`. Its methods assign the fields in the source's order. Each is proved to leave the fields and the store as the matching `OdooSession` function says. The read-only operations (`isAuthenticated`, `makeRequest`, `searchRead`, …) are the `OdooSession` functions applied to `OdooAPI.Snapshot()`.

The HTTP transport is a parameter. `Reply` is either `Delivered(data)`, carrying the parsed response body, or `Failed` for any rejection. Each operation that posts also returns the `Post` (URL and body) it built, so "nothing was sent" can be stated. The random request id is an unconstrained integer parameter.

Behaviour of the code that a reader might not expect, and which the model keeps:

- A failed restore leaves the fields as they were; it does not clear them (src/utils/OdooAPI.js:38-41).
- `logout` clears `sessionId` and `uid` only when deleting the stored record succeeds (src/utils/OdooAPI.js:59-67). When the store rejects the delete, the client stays authenticated (`OdooSession.Logout`, `st.broken` case).
- A login is reported successful even when persisting the session fails. `storeSession` swallows the error.
- Login success needs a truthy `uid`, not just a non-null one, so `uid: 0` is rejected (`ZeroUidRejected`).
- `sessionId` and `uid` are not kept both null or both non-null. A result without `session_id` leaves `sessionId` `undefined`, and `isAuthenticated()` is then true, because `undefined !== null` (`LoginWithoutSessionId`). A result with `session_id: null` gives a successful login that is not authenticated (`LoginAuthenticates`).
- Failures are thrown, not returned as outcome values. The model writes them as `Outcome.Throw`.

## Model

| member | source | states |
|---|---|---|
| `JsonRpc.ReadResponse` | src/utils/OdooAPI.js:166-170 | the call succeeds iff the body is not null/undefined and its `error` is falsy; it then returns `result` unchanged; a nullish body fails with a TypeError; a truthy `error` fails with `error.message` when that is truthy, else with "API request failed", whatever other members the error object has |
| `JsonRpc.Answer` | src/utils/OdooAPI.js:153-174 | a rejected post fails the call with the transport's error; a delivered one is read as above |
| `JsonRpc.ReadResultResponse` | src/utils/OdooAPI.js:170 | a success response yields its `result` unchanged |
| `JsonRpc.ReadErrorResponse` | src/utils/OdooAPI.js:166-168 | an error response with any error object (`code`, `message`, `data` or other members) fails with its `message`, or with "API request failed" when the message is absent or falsy |
| `JsonRpc.ObjectRequestDecodes` | src/utils/OdooAPI.js:141-151 | the object envelope is a request with `jsonrpc` "2.0", method "call", a numeric id and `service` "object", and it carries exactly the method, args and kwargs it was built from |
| `JsonRpc.AuthRequestDecodes` | src/utils/OdooAPI.js:71-80 | the authentication envelope is a "2.0"/"call" request carrying exactly db, login and password |
| `OdooSession.Initial` | src/utils/OdooAPI.js:11-17 | a new client is unauthenticated, with the configured base URL, `db` null and a 30000 ms timeout |
| `OdooSession.Initialize` | src/utils/OdooAPI.js:20-27 | base URL = override `||` default and timeout = override `||` 30000, so both are always truthy; without a readable record `db` = override `||` current and `sessionId`/`uid` are unchanged; with one, the three fields come from the record |
| `OdooSession.IsAuthenticated` | src/utils/OdooAPI.js:131-133 | authenticated iff neither `sessionId` nor `uid` is `null` (strict comparison, so `undefined` counts as present) |
| `OdooSession.HoldsRecord` | src/utils/OdooAPI.js:32-35 | a restore happens iff the read succeeds and the key holds text that parses to a value other than null/undefined |
| `OdooSession.CheckStoredSession` | src/utils/OdooAPI.js:30-42 | with a readable record `sessionId`, `uid` and `db` become the record's fields and nothing else changes; otherwise (rejected read, no entry, unparseable text, `null` record) the fields are unchanged |
| `OdooSession.StoreSession` | src/utils/OdooAPI.js:45-56 | with a working store, the key 'odoo_session' holds the JSON round trip of `{sessionId, uid, db}`; other keys are untouched; a rejecting store is unchanged |
| `OdooSession.ClearSession` | src/utils/OdooAPI.js:59-67 | with a working store the record is gone, every other key is untouched and `sessionId`/`uid` are null; `db`, base URL and timeout are kept; with a rejecting store nothing changes |
| `OdooSession.LoginPost` | src/utils/OdooAPI.js:70-92 | login posts to base URL + '/web/session/authenticate' an authentication request whose db is the argument when truthy, else the current `db` |
| `OdooSession.Accepted` | src/utils/OdooAPI.js:94 | a login reply is accepted iff it was delivered, its `result` is truthy and that result's `uid` is truthy |
| `OdooSession.Login` | src/utils/OdooAPI.js:94-106 | succeeds iff the reply is delivered with a truthy `result` whose `uid` is truthy; it then sets the three fields from `session_id`, `uid` and `db`, persists them and returns `{success: true, uid, db}`; every failure leaves fields and store unchanged: a network error for a failed post, a TypeError for a null/undefined body, "Authentication failed" for any other rejected reply |
| `OdooSession.LogoutPost` | src/utils/OdooAPI.js:113-122 | logout posts an empty body to base URL + '/web/session/logout' |
| `OdooSession.Logout` | src/utils/OdooAPI.js:110-128 | never rejects; with a working store `sessionId` and `uid` end `null`, everything else is kept and the stored record is gone, whatever the reply; with a rejecting store nothing changes |
| `OdooSession.MakeRequest` | src/utils/OdooAPI.js:136-175 | unauthenticated: fails with "Not authenticated" and posts nothing; a non-iterable `args` throws before posting; an authenticated call with array or string `args` always posts; it posts to base URL + '/xmlrpc/2/object' a request that decodes to `[db, uid, sessionId, model] ++ args` with kwargs defaulting to `{}`, and settles as the reply is read |
| `OdooSession.SearchRead` | src/utils/OdooAPI.js:178-180 | calls `search_read` with `[domain, fields, offset, limit, order]`; missing arguments default to `[]`, `[]`, 0, 80, '' |
| `OdooSession.SearchCount` | src/utils/OdooAPI.js:183-185 | calls `search_count` with `[domain]`, domain defaulting to `[]` |
| `OdooSession.Create` | src/utils/OdooAPI.js:188-190 | calls `create` with `[data]` |
| `OdooSession.Write` | src/utils/OdooAPI.js:193-195 | calls `write` with `[[id], data]` |
| `OdooSession.Unlink` | src/utils/OdooAPI.js:198-200 | calls `unlink` with `[[id]]` |
| `OdooSession.Execute` | src/utils/OdooAPI.js:203-205 | passes the method, args (default `[]`) and kwargs (default `{}`) through unchanged (a string args is spread into its characters); a `null` or other non-iterable args throws before posting |
| `JsValues.ReviveExact` | src/utils/OdooAPI.js:32-37 | a value without nested `undefined` comes back unchanged from `JSON.stringify` followed by `JSON.parse` |
| `JsValues.ReviveIdempotent` | src/utils/OdooAPI.js:52 | a second JSON round trip changes nothing more |
| `SessionProperties.StoreThenRestore` | src/utils/OdooAPI.js:30-56 | restoring after `storeSession` sets each of the three fields to its JSON round trip and keeps the other fields |
| `SessionProperties.StoreThenRestoreExact` | src/utils/OdooAPI.js:30-56 | stored `sessionId`, `uid` and `db` are restored identically |
| `SessionProperties.StoreThenInitialize` | src/utils/OdooAPI.js:20-56 | the same round trip through `initialize`, whatever its configuration; the client is authenticated afterwards iff it was when it stored |
| `SessionProperties.RestoreIdempotent` | src/utils/OdooAPI.js:30-42 | restoring twice from one store equals restoring once |
| `SessionProperties.RestoreWithoutRecord` | src/utils/OdooAPI.js:30-42 | a rejecting store, a missing record or unparseable text leave every field unchanged |
| `SessionProperties.LoginAuthenticates` | src/utils/OdooAPI.js:94-106 | after an accepted login the client is authenticated iff `session_id` was non-null; after a rejected one it is authenticated iff it was before |
| `SessionProperties.LoginThenRestore` | src/utils/OdooAPI.js:94-98 | an accepted login is persisted: a later start-up restores the session id, user id and database the server returned |
| `SessionProperties.ZeroUidRejected` | src/utils/OdooAPI.js:94 | a result with `uid: 0` is rejected and nothing changes |
| `SessionProperties.LoginWithoutSessionId` | src/utils/OdooAPI.js:94-97 | a result without `session_id` is accepted and leaves the client authenticated with an `undefined` session id |
| `SessionProperties.LoginExample` | src/utils/OdooAPI.js:94-99 | the reply `{uid: 7, session_id: "abc", db: "mycompany"}` authenticates with those values, returns them and stores exactly that record |
| `SessionProperties.LogoutIgnoresReply` | src/utils/OdooAPI.js:110-128 | logout's effect does not depend on how its request settled |
| `SessionProperties.LogoutThenRestore` | src/utils/OdooAPI.js:59-67 | after a logout whose delete succeeded, a later start-up restores nothing |
| `SessionProperties.LoginThenLogout` | src/utils/OdooAPI.js:94-128 | login followed by logout leaves the client unauthenticated with the server's `db` |
| `SessionProperties.LoginThenLogoutBrokenStore` | src/utils/OdooAPI.js:7 | with a store whose every call rejects, login then logout leaves the client authenticated and nothing stored |
| `SessionProperties.SearchReadExample` | src/utils/OdooAPI.js:178-180 | `searchRead('res.partner', [], ['name'], 0, 80, '')` sends `search_read` with args exactly `[db, uid, sessionId, 'res.partner', [], ['name'], 0, 80, '']` |
| `SessionProperties.SearchReadDefaults` | src/utils/OdooAPI.js:178 | omitted `searchRead` arguments behave as `[]`, `[]`, 0, 80, '' |
| `SessionProperties.ServerErrorExample` | src/utils/OdooAPI.js:166-168 | an error response `{code: 200, message: "Access Denied", data}` fails any authenticated call with that message, whatever `data` holds |
| `SessionProperties.CallReturnsResult` | src/utils/OdooAPI.js:170 | an authenticated call returns a success response's `result` unchanged |
| `OdooApi.OdooAPI.constructor` | src/utils/OdooAPI.js:11-17 | the fields start as `Initial()` |
| `OdooApi.OdooAPI.Initialize` | src/utils/OdooAPI.js:20-27 | the fields end as `OdooSession.Initialize` gives |
| `OdooApi.OdooAPI.CheckStoredSession` | src/utils/OdooAPI.js:30-42 | the fields end as `OdooSession.CheckStoredSession` gives |
| `OdooApi.OdooAPI.StoreSession` | src/utils/OdooAPI.js:45-56 | the store ends as `OdooSession.StoreSession` gives; the fields are not modified |
| `OdooApi.OdooAPI.ClearSession` | src/utils/OdooAPI.js:59-67 | fields and store end as `OdooSession.ClearSession` gives |
| `OdooApi.OdooAPI.Login` | src/utils/OdooAPI.js:70-107 | posts `LoginPost`; fields, store and outcome are those of `OdooSession.Login` |
| `OdooApi.OdooAPI.Logout` | src/utils/OdooAPI.js:110-128 | posts `LogoutPost`; fields and store are those of `OdooSession.Logout` |
| `OdooApi.LoginLogoutSession` | src/utils/OdooAPI.js:20-128 | start-up, login, then logout on a working store: the login succeeds iff its reply is accepted, and afterwards the client is unauthenticated with no stored record |

## Findings

| source | as written | input that shows it | evidently intended | confidence | as-written member | corrected member |
|---|---|---|---|---|---|---|
| src/utils/OdooAPI.js:7 | the store is imported as a named export `{ AsyncStorage }`; a package that exports it only as its default leaves the name `undefined`, so every `getItem`/`setItem`/`removeItem` throws a TypeError, which the client swallows | an accepted login, then `logout()`: the delete throws, `clearSession` never clears the fields, and the client stays authenticated; nothing survives a restart | a default import, so that login persists and logout clears | medium (depends on the package's exports), not executed | `SessionProperties.LoginThenLogoutBrokenStore` | `SessionProperties.LoginThenLogout` |

## Left out

- The HTTP transport (axios), request headers (including the session header on the logout request) and the timeout handling. A post is an abstract `Reply`; `timeout` is stored and never used.
- The request id `Math.floor(Math.random() * 1000)`: it is a free integer parameter, so its range is not modelled.
- The key-value store's own implementation. A store either accepts or rejects every call (`broken`); a store that fails only some calls is the same store with `broken` changed between operations.
- The key-value store's JSON text itself. Stored text is represented by what `JSON.parse` returns for it (`Json(doc)`), or as `Malformed`.
- Concurrent `login`/`logout` calls on the shared instance: their async interleavings are not sequential logic.
- `console.*` logging: the swallowed errors leave no other trace.
- Numbers are integers. Floating point, `NaN`, `-0` and the exponent form of large numbers in template literals and JSON are not modelled.
- The `Error` constructor's conversion of a non-string message to a string: the thrown error carries the message value itself.
- Properties inherited from prototypes (for example `length` of a string) are not modelled; none of the keys the client reads are inherited.
- The retry settings and the page size in the configuration (src/config/api.config.js:33-37): the call path never reads them, and `searchRead` hard-codes 80.
- src/components/AuthProvider.js, src/screens/DashboardScreen.js, src/screens/LoginScreen.js, src/navigation/AppNavigator.js and App.tsx. These are UI, navigation, and the React state that mirrors the client; they are not part of this model.

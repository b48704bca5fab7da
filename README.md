# Relay client core of the 0x launch-kit frontend, in Dafny

This project models the request orchestration of the launch-kit's relay
client, its user-auth service and the `user` reducer of its store, and
proves properties of that model.

- `wrappers.dfy` — `Option` and `Result` (a call into the HTTP client either
  yields a value or throws an error with a message).
- `session.dfy` — the session record `UserToken`, the request options
  `AuthOpts`, the auth-header derivation and the login-response decision.
  `relayer.ts` and `userAuth.ts` each declare identical copies of these; the
  model defines them once and both classes use them.
- `relay.dfy` — the `Relayer` client: the paginated read of one market side
  (an imperative loop proved against the function `Paginate`), the two-sided
  reads with their fail-soft 401 policy (`SettleRead`), the collectible-order
  read and the best-ask selection.
- `auth.dfy` — the `UserAuthService` class with its one session field, and
  the lazily created shared instance behind `getUserAuth`.
- `user_store.dfy` — the `user` reducer as a total function over the user state.

The remote services are parameters. The relay's HTTP client is a total
function from a request to a `Result`. The login endpoint is a function from
the posted credentials to what the browser reports: a load with a status and
a parsed body, or no load at all. Every observable action of a read comes
back as a sequence of events: `Acquire` for each rate-limit slot, then one
event per request sent, and `Login` for the fallback login.

Some behaviour of the code is easy to misread; the model follows the code as written:
- The auth options of an anonymous session are not empty. They are
  `authorization = "Bearer "` and `userId = 0`.
- When the first page reports `total = 0`, the read returns the orders of that
  page. It does not return a fixed empty list.
- The 401 test is a search for `"401"` in the error's message, not a status check.
- If the fallback login itself rejects, the two-sided read rejects with the
  login's status. If the login never settles, the read never settles either.
  The read returns an empty list only when there is no fallback login, or
  when the fallback login resolves.
- `UserAuthService` has no logout. Logout exists only as a reducer action.
- A 200 answer whose body is not JSON makes `JSON.parse` throw inside the
  load handler. A request that never loads has no handler at all. In both
  cases the login promise never settles, and the model calls this `Unsettled`.

## Model

| member | source | states |
|---|---|---|
| `Session.AuthOptsOf` | src/services/relayer.ts:32-38 | the authorization is exactly `"Bearer "` followed by the token, and the user id is the session's |
| `Session.AuthOptsRoundTrip` | src/services/relayer.ts:32-38 | the session can be read back from its auth options, so nothing is lost |
| `Session.AuthOptsInjective` | src/services/relayer.ts:32-38 | two different sessions never produce the same auth options |
| `Session.AnonymousAuthOpts` | src/services/relayer.ts:10-13 | the anonymous session (user id 0, empty token) yields `"Bearer "` and user id 0, not an empty structure |
| `Session.SendLoginData` | src/services/relayer.ts:40-66 | resolves iff the status is 200 and the body parses, with the body's user id and token; rejects iff the status is not 200, with that status; otherwise never settles (userAuth.ts:33-59 is the same code) |
| `Relay.CeilDiv` | src/services/relayer.ts:198 | the result is the ceiling of total divided by the page size: the least count whose pages hold all records, never more than total |
| `Relay.MapOrders` | src/services/relayer.ts:192-194 | same length as the records, and the i-th order is the i-th record's order |
| `Relay.Paginate` | src/services/relayer.ts:182-200 | the read issues at least one request, and the first one is for the starting page |
| `Relay.PaginateRequestsConsecutivePages` | src/services/relayer.ts:174-190 | request i is for page start+i and carries the same captured query options; only the page differs |
| `Relay.PaginateStopsAtLastPage` | src/services/relayer.ts:182-200 | every request but the last succeeded and announced a further page by its own total and page size; the last one failed or announced none |
| `Relay.PaginateOutcome` | src/services/relayer.ts:185-201 | the read fails iff its last request failed, with that error; on success the result is every page's orders concatenated in page order |
| `Relay.EmptyTotalSingleRequest` | src/services/relayer.ts:182-200 | if the first response reports total 0, exactly one request is issued and the result is that page's orders |
| `Relay.SteadyServerPageCount` | src/services/relayer.ts:185-200 | against a server with a fixed total and page size, the read issues one request per page up to the last page, and at least one |
| `Relay.TwentyFiveRecordsThreeRequests` | src/services/relayer.ts:185-200 | 25 records at 10 per page take exactly three requests |
| `Relay.Gated` | src/services/relayer.ts:185-190 | each request is immediately preceded by exactly one rate-limit acquisition, in request order |
| `Relay.Search` | src/services/relayer.ts:78 | returns -1 iff the pattern occurs nowhere in the message; otherwise returns the first index where it occurs |
| `Relay.SettleRead` | src/services/relayer.ts:68-89 | when both sides succeed: the sell orders then the buy orders, with the session unchanged. The fallback login is sent iff the first error mentions 401. The session changes only to a resolved login's token. A failed read never returns orders. After a 401, a rejected fallback login makes the read reject with that status, and a login that never settles leaves the read unsettled; conversely a rejected or unsettled read comes only from such a login |
| `Relay.BestAskPrice` | src/services/relayer.ts:133-142 | no price iff there are no asks; otherwise the first ask's taker amount with the quote decimals over its maker amount with the base decimals |
| `Relay.LaterAsksIgnored` | src/services/relayer.ts:133-134 | asks after the first never change the price |
| `Relay.Relayer.constructor` | src/services/relayer.ts:22-30 | a new client holds the anonymous session (user id 0, empty token) and the given rate |
| `Relay.Relayer.GetAuthOpts` | src/services/relayer.ts:32-38 | `"Bearer " + token` and the stored user id, as a function that reads the session but cannot change it |
| `Relay.Relayer.GetOrders` | src/services/relayer.ts:168-202 | the loop's result and its acquire/request events equal those of `Paginate` from page 1, with the auth options captured before the loop |
| `Relay.Relayer.ReadBothSides` | src/services/relayer.ts:68-89 | reads base-to-quote and then quote-to-base with the same session; result, new session and events are those of `SettleRead` |
| `Relay.Relayer.GetAllOrders` | src/services/relayer.ts:68-89 | the two-sided read without a maker filter |
| `Relay.Relayer.GetUserOrders` | src/services/relayer.ts:97-122 | the two-sided read with `account` as maker address on both sides |
| `Relay.Relayer.GetSellCollectibleOrders` | src/services/relayer.ts:145-160 | one acquisition and one ERC-721/ERC-20 request with the current auth options; fails iff it failed, otherwise its records mapped to orders |
| `Relay.Relayer.GetCurrencyPairPrice` | src/services/relayer.ts:124-143 | one acquisition and one order-book request; fails iff it failed, otherwise the best-ask price of its asks |
| `Auth.UserAuthService.constructor` | src/services/userAuth.ts:16-17 | a new service is anonymous: user id 0, empty token |
| `Auth.UserAuthService.GetAuthOpts` | src/services/userAuth.ts:19-25 | `"Bearer " + token` and the stored user id, read-only |
| `Auth.UserAuthService.GetToken` | src/services/userAuth.ts:27-31 | after a resolved login the session is exactly the login's token; a rejected or unsettled login propagates and leaves the session as it was |
| `Auth.UserAuthCell.GetUserAuth` | src/services/userAuth.ts:62-68 | the first call creates a fresh anonymous service; later calls return the one already stored |
| `Auth.SameInstanceEveryCall` | src/services/userAuth.ts:62-68 | two calls of the accessor return the same instance |
| `Auth.LoginThenAuthOpts` | src/services/userAuth.ts:19-31 | after a resolved login the auth options carry the new token and user id; otherwise they are unchanged |
| `UserStore.User` | src/store/user/reducers.ts:17-50 | an action changes only the fields it touches: the payload's fields for set-credentials, the error for login-error, token and user id for logout, the sign-up flag for sign-up, none otherwise; each touched field takes the named value; a missing state is the initial one |
| `UserStore.InitialStateIsAnonymous` | src/store/user/reducers.ts:7-15 | the initial state has empty token, email, password, name and error, user id 0 and no sign-up |
| `UserStore.LogoutIdempotent` | src/store/user/reducers.ts:33-40 | logging out twice gives the same state as logging out once |
| `UserStore.SetLoginCredentialsIdempotent` | src/store/user/reducers.ts:19-25 | an empty payload changes nothing, and applying a payload twice is applying it once |
| `UserStore.OtherActionsKeepState` | src/store/user/reducers.ts:47-48 | any other action returns the state unchanged |

## Left out

- `getOrderConfigAsync` and `submitOrderAsync` (src/services/relayer.ts:91-95, 162-166) are not modelled. Each is one rate-limited call that passes the auth options through to the HTTP client, and has no logic of its own.
- The rate limiter's timing is not modelled. The limiter is an `Acquire` event before each request, and `rps` is stored but not enforced.
- `Promise.all` concurrency is not modelled. The two sides run one after the other and both always run to their end. If both sides fail, the model reports the sell side's error, whereas the source reports whichever side fails first in time.
- The lazy `getRelayer` singleton (src/services/relayer.ts:205-213) is not modelled. It only constructs the HTTP client once.
- Relay.BestAskPrice: the BigNumber division and `tokenAmountInUnitsToBigNumber` (src/services/relayer.ts:137-139) are decimal arithmetic in a helper that is not part of this model. The function returns the operands of the division, not its value.
- `assetDataUtils.encodeERC20AssetData`, the HTTP client's wire format and the login URL and headers are foreign calls. The encoder is a function parameter.
- The hard-coded fallback credential (src/services/relayer.ts:79-83) is not modelled as a value. It is the `fallback` argument of the two-sided reads.
- Logging is not modelled.
- Relay.Search: only plain patterns are modelled. `String.search` takes a regular expression, and `"401"` contains no special characters, so a plain substring search gives the same answer.
- Relay.SettleRead: every thrown value is assumed to be an error with a string message. In the two-sided reads' `catch` (src/services/relayer.ts:77-78, 110-111), `error.constructor.name` throws for a `null` or `undefined` error, and `.message.search` throws for a value without `message`; neither is modelled.
- Relay.Relayer.GetOrders: totals and page sizes are naturals. The server is assumed to report a positive page size and a total below a bound. Those assumptions give the loop a termination measure. JavaScript's behaviour for a zero or fractional page size is not modelled.
- Session.SendLoginData: a parsed body is assumed to carry a numeric `userId` and a string `token`. Missing or mistyped fields are not modelled.
- UserStore.User: the four action kinds are modelled directly, as if each case label were a distinct action-type string. The labels come from a store module that is not part of this model. The only `userActions` object in src/store/user/actions.ts:23-26 holds just `login` and `logout`, and both are functions. If that object is the one used, then `loginError` and `signup` are `undefined`, `logout` never equals the `'user/LOGOUT'` type string, and only the set-credentials case could match. Payload fields that `UserState` lacks, such as the `authorization` of an `AuthOpts` payload, are dropped.
- `src/components/common/login.tsx`, `src/store/user/actions.ts` and `serve.js` are UI, action-creator glue and a static file server, and are not modelled.

# Todo app client and settings — a Dafny model

This project models the core of a todo application made of a React Native client and a Django
backend, and proves properties of that model.

- **API client** (`ApiSpec`, `ApiClient`, `ApiProps`). This is the mobile app's axios instance with its two interceptors, the `authService` and the `todoService`.
  - The request hook adds `Authorization: Bearer <access token>` when a token is stored.
  - The error hook has three paths, tried in this order:
    - A Cloudflare 520 goes to `retryRequest`: at most 3 resends, waiting 2, 4 and 8 seconds.
    - A first 401 on a config marks it, refreshes the access token and replays the request.
    - Everything else is normalised into an error message.
  - `updateTodo` and `deleteTodo` wrap the whole pipeline in a retry loop of their own.
  - `ApiSpec` states the pipeline and the services as pure functions over a `World` value. The `World` holds:
    - the token storage;
    - the replies the server will give, in order (an exhausted script means "no response");
    - the log of every request sent with its reply;
    - the backoff delays waited.
  - `ApiClient` is the imperative version:
    - a `TokenStore` (AsyncStorage), a `Transport` (the network) and a `Config` object that the hooks mutate (`_retryCount`, `_retry`, headers);
    - an `Api` class whose methods follow the source step by step, loops included;
    - each method is proved to produce exactly the result and new state of its `ApiSpec` function.
  - `ApiProps` proves what the pipeline and the services do.
- **TodoContext** (`TodoContext`). This is the `TodoProvider` state: the list of todos, the loading flag and the error string. It is a class whose methods take the settled result of the service call.
- **Root layout** (`RootLayout`). This is the `checkAuth` routing decision made at start-up.
- **Settings** (`PyStrings`, `Settings`, `Cors`):
  - the three comma-separated list properties of the Django settings class;
  - the module-level CORS whitelist;
  - the two Python string operations they rely on, `str.split(',')` and `str.strip()`.

Behaviours of the code worth knowing:

- A 520 that is still failing after three retries is rejected with axios' own message ("Request failed with status code 520"). The switch's `case 520` text is never used, because the 520 branch returns before the switch.
- If the first `removeItem` of `logout` rejects, both tokens stay stored.
- The refresh request is itself an unmarked config. A 401 on it starts another refresh, so the chain of refreshes is bounded only by the server's replies, not by the `_retry` mark.
- A login with wrong credentials answers 401, and that 401 enters the refresh path. With no refresh token stored, the login fails with "Session expired. Please login again." and both tokens are removed. With one stored, the refresh runs first: if it fails the outcome is the same, and if it succeeds the new access token is written and the login is replayed, whose second 401 removes both tokens and gives axios' own 401 message.
- A login body that has `access` but no `refresh` has already stored the access token when the second write fails.

## Model

| member | source | states |
|---|---|---|
| PyStrings.Strip | todoproject/settings_config.py:49 | `str.strip()` gives a result whose first and last characters are not whitespace |
| PyStrings.StripCutsOnlySpace | todoproject/settings_config.py:49 | what `strip()` keeps is a contiguous part of the input, and everything it removes on either side is whitespace |
| PyStrings.Split | todoproject/settings_config.py:49 | `split(',')` gives one more piece than there are commas, and no piece contains a comma |
| PyStrings.JoinSplit | todoproject/settings_config.py:49 | joining the pieces of `split(sep)` with `sep` gives the input back |
| PyStrings.StripAll | todoproject/settings_config.py:49 | the comprehension `[x.strip() for x in parts]` keeps the length and strips each item in place |
| PyStrings.StripAllStripped | todoproject/settings_config.py:49 | stripping pieces that are already stripped changes nothing |
| Settings.CommaItems | todoproject/settings_config.py:49 | one stripped item per comma-separated piece |
| Settings.AllowedHosts | todoproject/settings_config.py:47-49 | `allowed_hosts` has one item per piece (so it is never empty), item k is piece k stripped |
| Settings.CsrfTrustedOrigins | todoproject/settings_config.py:51-53 | `csrf_trusted_origins` has one item per piece, item k is piece k stripped |
| Settings.CorsOriginWhitelist | todoproject/settings_config.py:55-59 | the list is empty exactly when the variable is the empty string; otherwise it has one item per piece, item k being piece k stripped |
| Settings.CommaItemsRoundTrip | todoproject/settings_config.py:47-53 | when no piece has surrounding whitespace, joining the items with commas gives the variable back |
| Settings.EmptyAndBlankValues | todoproject/settings_config.py:47-59 | an empty `ALLOWED_HOSTS` still gives `[""]`; an empty whitelist gives `[]`; a blank whitelist without commas gives `[""]` |
| Settings.EmptyPiecesKept | todoproject/settings_config.py:47-49 | `"a,,b"` gives three hosts, the middle one empty |
| Settings.SplitAtSeparator | todoproject/settings_config.py:49 | a comma-free prefix followed by a comma becomes a piece of its own |
| Cors.NonEmpty | todoproject/cors.py:12 | the `if origin.strip()` filter only drops items and keeps only non-empty ones, taken from the input |
| Cors.NonEmptyMembers | todoproject/cors.py:12 | an item survives the filter exactly when it is in the input and is not empty |
| Cors.NonEmptyAppend | todoproject/cors.py:12 | the filter commutes with concatenation, so the survivors keep their order |
| Cors.CorsOriginWhitelist | todoproject/cors.py:9-13 | every whitelist entry is non-empty and stripped, and there are at most as many entries as comma-separated pieces |
| Cors.WhitelistMembers | todoproject/cors.py:9-13 | an origin is whitelisted exactly when it is a non-empty stripped piece of the variable |
| Cors.UnsetOrEmpty | todoproject/cors.py:11 | an unset or empty variable gives an empty whitelist |
| RootLayout.CheckAuth | TodoMobile/app/_layout.tsx:15-38 | a refresh is attempted exactly when there is no access token, there is a refresh token, and the route is outside `(auth)`. The target is `/login` exactly when a storage read throws, or there are no tokens outside `(auth)`, or the attempted refresh fails. It is `/(tabs)` exactly when there is an access token inside `(auth)`, or the refresh succeeds. There is no navigation exactly when having an access token and being outside `(auth)` coincide |
| RootLayout.RefreshOutcomeMattersOnlyWhenAttempted | TodoMobile/app/_layout.tsx:25-32 | the refresh outcome changes the decision exactly when a refresh is attempted |
| TodoContext.ReplaceById | TodoMobile/app/contexts/TodoContext.tsx:51 | `map`: the length is kept, and each todo with the id becomes the server's todo while the others stay |
| TodoContext.RemoveById | TodoMobile/app/contexts/TodoContext.tsx:63 | `filter`: every survivor is one of the old todos and none has the id |
| TodoContext.ReplaceAbsentId | TodoMobile/app/contexts/TodoContext.tsx:51 | updating an id that no todo has leaves the list unchanged |
| TodoContext.RemoveByIdExact | TodoMobile/app/contexts/TodoContext.tsx:63 | a todo survives deletion exactly when its id differs; the length drops by the number of matches |
| TodoContext.RemoveByIdAppend | TodoMobile/app/contexts/TodoContext.tsx:63 | deletion commutes with concatenation, so the survivors keep their order |
| TodoContext.TodoProvider.constructor | TodoMobile/app/contexts/TodoContext.tsx:18-20 | starts with no todos, not loading, and no error |
| TodoContext.TodoProvider.FetchTodos | TodoMobile/app/contexts/TodoContext.tsx:22-34 | on success the list is the server's and the error is cleared; on failure the list is kept and the error is the `Error`'s message or "Failed to fetch todos"; loading is off afterwards |
| TodoContext.TodoProvider.CreateTodo | TodoMobile/app/contexts/TodoContext.tsx:36-46 | on success the new todo is appended at the end and the error is cleared; on failure the list is kept, the error is set and the failure is rethrown |
| TodoContext.TodoProvider.UpdateTodo | TodoMobile/app/contexts/TodoContext.tsx:48-58 | on success the list becomes `ReplaceById` of the old list; on failure the list is kept, the error is set and the failure is rethrown |
| TodoContext.TodoProvider.DeleteTodo | TodoMobile/app/contexts/TodoContext.tsx:60-70 | on success the list becomes `RemoveById` of the old list; on failure the list is kept, the error is set and the failure is rethrown |
| ApiSpec.Authorize | TodoMobile/app/services/api.ts:19-31 | only the `Authorization` header can change. With a stored access token it becomes `Bearer <token>`; without one the config is unchanged |
| ApiSpec.Fetch | TodoMobile/app/services/api.ts:55-64 | a pass through the pipeline only consumes scripted replies; the other properties are in the `ApiProps` lemmas below |
| ApiSpec.Normalise | TodoMobile/app/services/api.ts:109-142 | the config is unchanged and the error is always rejected as an axios error. Only the two tokens can change in the world |
| ApiSpec.Logout | TodoMobile/app/services/api.ts:194-201 | logout never fails and never touches other keys. Without a fault both tokens are gone. A failing first removal keeps both tokens. A failing second removal removes exactly the access token and keeps everything else as it was |
| ApiClient.Api.Send | TodoMobile/app/services/api.ts:19-64 | the request hook, one exchange and the response hooks give exactly `ApiSpec.Fetch`'s result, config and world |
| ApiClient.Api.OnError | TodoMobile/app/services/api.ts:64-143 | the error hook's dispatch gives exactly `ApiSpec.OnError`'s outcome |
| ApiClient.Api.RetryRequest | TodoMobile/app/services/api.ts:34-52 | `retryRequest` on the mutable config gives exactly `ApiSpec.RetryRequest`'s outcome |
| ApiClient.Api.RefreshAndReplay | TodoMobile/app/services/api.ts:84-106 | the refresh call, storing the new token, rewriting the header and replaying give exactly `ApiSpec.RefreshAndReplay`'s outcome |
| ApiClient.Api.Normalise | TodoMobile/app/services/api.ts:109-142 | the switch on the config object gives exactly `ApiSpec.Normalise`'s outcome |
| ApiClient.Api.Login | TodoMobile/app/services/api.ts:147-159 | equals `ApiSpec.Login` |
| ApiClient.Api.RefreshToken | TodoMobile/app/services/api.ts:161-180 | equals `ApiSpec.RefreshTokenCall` |
| ApiClient.Api.Register | TodoMobile/app/services/api.ts:182-192 | equals `ApiSpec.Register` |
| ApiClient.Api.Logout | TodoMobile/app/services/api.ts:194-201 | the storage after the two removals is `ApiSpec.Logout` of the storage before |
| ApiClient.Api.GetTodos | TodoMobile/app/services/api.ts:205-213 | equals `ApiSpec.GetTodos` |
| ApiClient.Api.GetTodo | TodoMobile/app/services/api.ts:215-226 | equals `ApiSpec.GetTodo` |
| ApiClient.Api.CreateTodo | TodoMobile/app/services/api.ts:228-236 | equals `ApiSpec.CreateTodo` |
| ApiClient.Api.ToggleTodo | TodoMobile/app/services/api.ts:289-297 | equals `ApiSpec.ToggleTodo` |
| ApiClient.Api.Attempt | TodoMobile/app/services/api.ts:243-257 | one loop attempt, with the `catch`'s wait after a 520, decides the next step of `ApiSpec.RetryLoop`: return the success, go round again after a 520 on any but the last pass, or give up |
| ApiClient.Api.RunRetryLoop | TodoMobile/app/services/api.ts:238-259 | the `while` loop returns exactly `ApiSpec.RetryLoop`'s result and leaves its world |
| ApiClient.Api.UpdateTodo | TodoMobile/app/services/api.ts:238-260 | equals `ApiSpec.UpdateTodo` |
| ApiClient.Api.DeleteTodo | TodoMobile/app/services/api.ts:262-287 | equals `ApiSpec.DeleteTodo` |
| ApiProps.FetchKeeps | TodoMobile/app/services/api.ts:19-143 | whatever the server replies, a pass sends at least one request. It only consumes replies and appends to the log and the delays. It leaves every non-token key alone and never writes the refresh token. On the config it keeps the method, path and body, raises `_retryCount` only on a 520 and never past 3, and sets `_retry` only on a 401. A success is the reply to the last request, and a 520 rejection comes only once the config's retries are used up, with axios' message |
| ApiProps.FetchAdvances | TodoMobile/app/services/api.ts:19-143 | a pass only moves the world forward, and the log grows |
| ApiProps.OnErrorAdvances | TodoMobile/app/services/api.ts:64-143 | the error hook only moves the world forward |
| ApiProps.RetryRequestAdvances | TodoMobile/app/services/api.ts:34-52 | `retryRequest` only moves the world forward |
| ApiProps.RefreshAndReplayAdvances | TodoMobile/app/services/api.ts:84-106 | the refresh path only moves the world forward and touches no non-token key |
| ApiProps.FetchFields | TodoMobile/app/services/api.ts:19-143 | the config evolves monotonically; `_retryCount` moves only on 520 replies and `_retry` only on 401 replies |
| ApiProps.OnErrorFields | TodoMobile/app/services/api.ts:64-143 | the same for the error hook, counting the reply that triggered it |
| ApiProps.RetryRequestFields | TodoMobile/app/services/api.ts:34-52 | the same for `retryRequest` |
| ApiProps.RefreshAndReplayFields | TodoMobile/app/services/api.ts:84-106 | the same for the refresh path |
| ApiProps.FetchOutcome | TodoMobile/app/services/api.ts:19-143 | a success is the last reply; a 520 rejection comes only at the retry limit and keeps axios' message; the refresh token is never written |
| ApiProps.OnErrorOutcome | TodoMobile/app/services/api.ts:64-143 | the same for the error hook |
| ApiProps.RetryRequestOutcome | TodoMobile/app/services/api.ts:34-52 | the same for `retryRequest` |
| ApiProps.RefreshAndReplayOutcome | TodoMobile/app/services/api.ts:84-106 | the same for the refresh path; only the access token is ever stored |
| ApiProps.FetchOn520 | TodoMobile/app/services/api.ts:79-81 | a 520 with retries left resends the config with a counter one higher, after its backoff, and nothing else changes |
| ApiProps.FetchOnLast520 | TodoMobile/app/services/api.ts:41-43 | a 520 with the retries used up is rejected unchanged, with axios' message, so the switch's 520 text is never reached |
| ApiProps.Through520s | TodoMobile/app/services/api.ts:34-52 | after k replies of 520 and then a success (or a final 520 at the limit), k+1 requests are sent. The delays are `Backoff(c+1..c+k)` and the tokens are untouched. The last reply decides the result |
| ApiProps.Delays | TodoMobile/app/services/api.ts:45-48 | the k retries of a config whose counter was c wait `Backoff(c+1)`, ..., `Backoff(c+k)` in that order |
| ApiProps.BackoffSchedule | TodoMobile/app/services/api.ts:48 | the retries of one config wait 2, 4 and 8 seconds, each delay strictly longer than the one before |
| ApiProps.UnauthorizedWithoutRefreshToken | TodoMobile/app/services/api.ts:84-106 | a first 401 without a refresh token marks the config, removes both tokens and fails with "Session expired" |
| ApiProps.RefreshThenReplay | TodoMobile/app/services/api.ts:84-100 | a successful refresh sends one refresh request carrying the stored refresh token and writes only the access token. The marked config is then replayed with the new bearer header, and its outcome is the call's |
| ApiProps.RefreshFailureExpires | TodoMobile/app/services/api.ts:84-106 | whatever the refresh call went through, if it yields no access token then both tokens are removed and the call fails with "Session expired", in the world the refresh call left |
| ApiProps.RefreshFailureCases | TodoMobile/app/services/api.ts:93-105 | a refresh with no response, with its own 520 retries used up, or with a success body lacking `access` ends the first 401 in "Session expired" with both tokens removed |
| ApiProps.RefreshRejected | TodoMobile/app/services/api.ts:93-105 | a rejected refresh removes both tokens and fails with "Session expired" after two requests |
| ApiProps.SecondUnauthorized | TodoMobile/app/services/api.ts:109-116 | a 401 on a config that is already marked removes both tokens and is rejected with axios' 401 message |
| ApiProps.MarkedSendsNoRefresh | TodoMobile/app/services/api.ts:79-85 | whatever the server replies, a config already marked `_retry` sends only itself again, marked, and never the refresh POST: one config starts at most one refresh |
| ApiProps.RefreshChain | TodoMobile/app/services/api.ts:84-106 | n replies of 401 in a row cause n+1 requests before "Session expired"; the `_retry` mark does not bound the chain |
| ApiProps.NoResponse | TodoMobile/app/services/api.ts:136-138 | no response gives the network-error message after one request, with the tokens untouched |
| ApiProps.ErrorMessages | TodoMobile/app/services/api.ts:109-135 | 403, 404 and 500 get their fixed texts. Any other status gets the body when it is non-empty, and axios' message otherwise. The world changes only by the one exchange |
| ApiProps.MessageNotEmpty | TodoMobile/app/services/api.ts:109-135 | a normalised message is never empty |
| ApiProps.LoginOutcomes | TodoMobile/app/services/api.ts:147-159 | for every script, a successful login returns the last reply's body, which has both tokens, and both stored tokens equal the body's; a failed login never writes the refresh token; no other key is touched |
| ApiProps.LoginStoresBothTokens | TodoMobile/app/services/api.ts:147-152 | a login answered by a 2xx at once stores both tokens from the body after one request |
| ApiProps.LoginAccessOnly | TodoMobile/app/services/api.ts:149-151 | a login body with `access` but no `refresh` fails after the access token is stored |
| ApiProps.WrongCredentials | TodoMobile/app/services/api.ts:147-159 | a 401 on login, with no refresh token, fails with "Session expired" and removes both tokens |
| ApiProps.RefreshTokenCallKeeps | TodoMobile/app/services/api.ts:161-180 | for every script, refreshToken never writes the refresh token and touches no other key; on success the stored access token is the returned body's `access`; without a refresh token nothing is sent |
| ApiProps.RefreshTokenCallOutcomes | TodoMobile/app/services/api.ts:161-173 | without a refresh token nothing is sent and the call fails; a 2xx first reply with an access token writes exactly that access token |
| ApiProps.RegisterOutcomes | TodoMobile/app/services/api.ts:182-192 | for every script, register's storage is what the interceptor left: the refresh token is never written and no other key touched; it succeeds exactly when the pipeline resolves, with the last reply's body |
| ApiProps.RegisterStoresNothing | TodoMobile/app/services/api.ts:182-185 | a registration answered by a 2xx at once returns the body and stores nothing |
| ApiProps.RegisterAfterRefresh | TodoMobile/app/services/api.ts:84-100 | a registration answered by 401, a refresh with an access token, then a 2xx succeeds with the interceptor's new access token stored |
| ApiProps.AuthServicesOnRejection | TodoMobile/app/services/api.ts:153-158 | login, register and refreshToken pass on the interceptor's message, so their fallback texts are never used. None of them touches the tokens on such a rejection: each call's world is the one exchange |
| ApiProps.TodoServicesOnRejection | TodoMobile/app/services/api.ts:204-236 | getTodo passes the interceptor's message on; getTodos, createTodo and toggleTodo replace it with their fixed texts |
| ApiProps.LoopGivesUpInTime | TodoMobile/app/services/api.ts:242-259 | the loops are always left from inside the `catch`, before `retryCount` reaches 3, so the "after multiple attempts" error is never thrown |
| ApiProps.LoopFailures | TodoMobile/app/services/api.ts:256-286 | every failure of `updateTodo` or `deleteTodo` is its "Please try again." error |
| ApiProps.LoopSuccessIsLastReply | TodoMobile/app/services/api.ts:242-246 | whatever the server replies, a loop succeeds only with a 2xx reply to its last request: an update returns that reply's body, a delete's reply is a 204 |
| ApiProps.LoopRetriesOnlyAfter520 | TodoMobile/app/services/api.ts:247-256 | when the server never answers 520 the loop makes exactly one attempt, returning its success or giving up with the "Please try again." error in the world that attempt left |
| ApiProps.DeleteNeeds204 | TodoMobile/app/services/api.ts:262-286 | `deleteTodo` succeeds only when the reply to its last request is a 204, whatever came before; on any attempt, a success with another status gives up at once with "Failed to delete todo. Please try again." |
| ApiProps.DeleteOnFirstSuccess | TodoMobile/app/services/api.ts:268-272 | a first reply of 2xx settles a delete after one request: a 204 succeeds, any other status fails without a retry or a wait |
| ApiProps.UpdateRecoversInHook | TodoMobile/app/services/api.ts:238-246 | replies 520, 520 and then a success make the first attempt succeed, after waits of 2 and 4 seconds |
| ApiProps.AttemptOn520s | TodoMobile/app/services/api.ts:243-246 | an attempt that meets four 520s fails with the 520 error after the hook's 2, 4 and 8 second waits |
| ApiProps.LoopFrom520s | TodoMobile/app/services/api.ts:242-258 | when only 520s come back, each remaining attempt sends four requests, and the loop gives up after its last attempt |
| ApiProps.LoopOn520s | TodoMobile/app/services/api.ts:238-259 | a server answering only 520 makes `updateTodo` or `deleteTodo` send 12 requests before giving up. The waits are 2, 4, 8, 1, 2, 4, 8, 2, 2, 4 and 8 seconds |

## Left out

- The 30-second timeout, the base URL and the rest of axios' configuration merge are left out. A timeout is one more way of getting no response, which the model already has.
- Console logging is left out; it has no effect on results.
- Timers are recorded as delays in the world, not waited.
- `AsyncStorage` and the network are modelled as values: a token map, and a script of replies given in order. Concurrent requests and the interleaving of asynchronous calls are not modelled.
- The `getItem`, `setItem` and `removeItem` calls of `api.ts` are taken never to reject, including the `removeItem` calls of the 401 paths (api.ts:103-104 and 114-115). Storage faults are modelled for `logout`, whose `try`/`catch` swallows them, and for `checkAuth`, whose `catch` sends the user to `/login` (`RootLayout.CheckAuth`'s read failure).
- Response bodies are absent, text, or JSON text with the shape the client reads. Numbers and booleans as bodies are not modelled.
- Reading `.access` or `.refresh` from a success body that lacks it becomes a `BadShape` failure, after any write that comes before it. The library's own behaviour there (storing an `undefined` token) is not modelled.
- The error hook's third branch, for a request that was never sent, is not modelled: every request in the model is sent.
- ApiClient.Api.RunRetryLoop: leaves the loop with `break` where the source returns or throws from inside it; the method's result is the same.
- `useTodo` and the context plumbing are not modelled. Neither is the rendering of `TodoProvider` or of `RootLayout`.
- The router and the effect re-running on `segments` are not modelled. `checkAuth` takes its storage reads and the refresh outcome as inputs.
- The Django views, forms, middleware and serializers are not modelled; they are outside this model's scope.
- The other settings fields, `.env` loading and `lru_cache` are not modelled.
- Python's `str.strip()` is modelled with its whitespace set for the characters Dafny can write. Unicode normalisation is not modelled.
- ApiSpec.Fetch: its own contract states only that replies are consumed, the termination measure; what it promises is proved about it in `ApiProps`.
- ApiSpec.OnError: the same; see `ApiProps.OnErrorAdvances`, `OnErrorFields` and `OnErrorOutcome`.
- ApiSpec.RetryRequest: the same; see `ApiProps.RetryRequestAdvances`, `RetryRequestFields` and `RetryRequestOutcome`.
- ApiSpec.RefreshAndReplay: the same; see the three `ApiProps.RefreshAndReplay` lemmas.

# wire-web-packages: authenticated HTTP dispatch, cookie persistence and the Travis status bot, in Dafny

This project models two parts of the wire-web-packages monorepo and proves properties of the model.

- **api-client.** `HttpClient` sends a request with the held access token attached. It classifies each failure as a network error, a structured backend error or a raw error. When the backend refuses the token as invalid credentials on a first try, it refreshes the token through the access endpoint and sends the request again. The node cookie shim loads and saves the renewal cookie (`zuid`) in a key/value storage engine. It also attaches that cookie to the access request.
- **travis-status-bot.** `StoreService` keeps a subscriber table and a one-slot cache of the status document. `TravisNotificationService` and `TravisFeedService` diff freshly fetched incidents against what is stored and notify subscribers. `MainHandler` (TravisStatusBot.ts) answers `/feed`, `/help` and `/subscribe` and accepts connection requests.

Files and modules:

| file | module | what it holds |
|---|---|---|
| wrappers.dfy | Wrappers | `Option`, `Result`, `Outcome` |
| crud_store.dfy | CrudStore | the storage engine as a map from (table, key) to record, with a creation order and the tables whose reads and whose writes fail; class `Engine` |
| axios.dfy | Axios | JSON values with JavaScript truthiness; the request configuration, as a value and as the object the client edits in place; replies and errors |
| cookie.dfy | CookieShim | cookie.ts |
| http_client.dfy | HttpClientModel | HttpClient.ts, plus `sendRequestWithCookie` from cookie.ts, which calls back into the client |
| http_client_props.dfy | HttpClientProps | lemmas about the dispatcher |
| travis_types.dfy | TravisTypes | incidents, the status document, an order-keeping filter |
| store_service.dfy | StoreServiceModel | StoreService.ts |
| notification_service.dfy | NotificationServiceModel | TravisNotificationService.ts |
| feed_service.dfy | FeedServiceModel | TravisFeedService.ts |
| status_bot.dfy | StatusBotModel | TravisStatusBot.ts |

How the dispatcher is modelled. The network is an oracle. The client holds the list of replies still to come, and each request uses up the first one. The mutually recursive functions `SendSpec`, `RefreshSpec`, `PostAccessSpec` and `SendWithCookieSpec` each give the result of a call, the whole new client state and the request object as the call leaves it. The client state covers the connection state, the emitted events, the held token, the remaining replies, the requests sent and the cookie store. The methods of class `HttpClient` make the same changes in place, and each is proved equal to its function. They edit the `RequestConfig` object just as `_sendRequest` edits `config`.

The model follows the code as written:

- The re-send after a refresh passes `firstTry = true` (HttpClient.ts:138). Nothing therefore caps the number of refresh cycles, and `RefreshCyclesUnbounded` proves that n refusals can lead to n refreshes. Nothing caps the retries, and concurrent refreshes do not share one access request; the model follows the code.
- `postAccess` puts the URI-decoded stale token in an `Authorization` header (HttpClient.ts:174-178). `_sendRequest` then overwrites that header with the raw held token (HttpClient.ts:101-106). `PostAccessSendsRawToken` proves this.
- The access request also goes through `_sendRequest` as a first try (cookie.ts:88-102). If it is refused for invalid credentials while a token is held, a second refresh starts inside the first (`AccessRefusedRefreshes`, `NestedRefresh`).
- The feed service keeps the fetched incidents whose id the stored feed *does* hold (TravisFeedService.ts:68-70), an intersection. The notification service keeps those it does not hold. `DiffsSplitReceived` proves that, when both documents have incidents, the two diffs split the received incidents.
- A text event without a conversation falls through into the connection-request case. That case also tests the conversation, so the event does nothing (`TextNeverConnects`).

## Model

| member | source | states |
|---|---|---|
| HttpClientModel.HttpClient.constructor | packages/api-client/src/main/http/HttpClient.ts:41-54 | a new client is in the UNDEFINED state, has emitted no event and has sent nothing |
| HttpClientModel.UpdateConnection | packages/api-client/src/main/http/HttpClient.ts:75-80 | the state becomes the given one; exactly one event carrying it is emitted when it differs from the current state; setting the current state changes nothing |
| HttpClientModel.HttpClient.UpdateConnectionState | packages/api-client/src/main/http/HttpClient.ts:75-80 | the in-place update of the field and the event log is `UpdateConnection` |
| HttpClientProps.UpdateConnectionIdempotent | packages/api-client/src/main/http/HttpClient.ts:75-80 | setting a state twice is the same as setting it once |
| HttpClientProps.UpdateConnectionConsistent | packages/api-client/src/main/http/HttpClient.ts:75-80 | the event log stays consistent with the state: the last event is the current state, no event repeats its predecessor, UNDEFINED is never emitted |
| HttpClientProps.InitialConsistent | packages/api-client/src/main/http/HttpClient.ts:48 | the initial UNDEFINED state with no events is consistent |
| HttpClientModel.CreateUrl | packages/api-client/src/main/http/HttpClient.ts:82-84 | the URL is the base URL followed by the path, and nothing else |
| HttpClientModel.AttachCredentials | packages/api-client/src/main/http/HttpClient.ts:91-107 | with no token the config is unchanged; method, URL, base URL and credentials flag are always kept; the header form leaves the params alone, the parameter form leaves the headers alone |
| HttpClientModel.AttachCredentialsEffect | packages/api-client/src/main/http/HttpClient.ts:93-106 | with a token held, `Authorization` becomes `token_type + " " + access_token` (or `access_token` becomes the token as a parameter), and every other header (parameter) keeps its presence and value |
| HttpClientModel.HttpClient.AttachToConfig | packages/api-client/src/main/http/HttpClient.ts:91-107 | the in-place edit of the config object sets the base URL and gives the config `AttachCredentials` describes |
| HttpClientModel.Classify | packages/api-client/src/main/http/HttpClient.ts:117-146 | a failure is a network error exactly when there is no response and the request object has zero keys; a backend error exactly when a response body has truthy `code`, `label` and `message`; raw otherwise |
| HttpClientModel.AccessConfig | packages/api-client/src/main/http/HttpClient.ts:166-178 | the access request is a `post` to the access URL with credentials on and a headers object; it has `Authorization` exactly when a stale token with non-empty `access_token` is given; a failing URI decode throws before a promise is returned |
| HttpClientModel.ExpiredToken | packages/api-client/src/main/http/HttpClient.ts:150-153 | the stale token is handed on exactly when one is held with a non-empty `access_token` |
| HttpClientModel.TokenFromBody | packages/api-client/src/main/http/HttpClient.ts:162-163 | a token is read from the access body exactly when the body has string `token_type` and `access_token`, and it carries those two strings |
| HttpClientModel.SendSpec | packages/api-client/src/main/http/HttpClient.ts:86-147 | a call never gains replies, and uses at least one when any is left |
| HttpClientModel.HttpClient.Send | packages/api-client/src/main/http/HttpClient.ts:86-147 | result, new client state and the edited config object are those of `SendSpec` |
| HttpClientModel.HttpClient.RefreshAccessToken | packages/api-client/src/main/http/HttpClient.ts:149-164 | result and new client state are those of `RefreshSpec` |
| HttpClientModel.HttpClient.PostAccess | packages/api-client/src/main/http/HttpClient.ts:166-181 | result and new client state are those of `PostAccessSpec` |
| HttpClientModel.HttpClient.SendRequest | packages/api-client/src/main/http/HttpClient.ts:183-185 | a first try of `_sendRequest` with the caller's `tokenAsParam` (default: header); result and new state are those of `SendSpec` |
| HttpClientModel.HttpClient.SendJSON | packages/api-client/src/main/http/HttpClient.ts:187-193 | adds `Content-Type: application/json` to a copy of the headers, keeping the others, then sends |
| HttpClientModel.HttpClient.SendProtocolBuffer | packages/api-client/src/main/http/HttpClient.ts:195-198 | with no headers object it throws before returning a promise, sends nothing and changes nothing; otherwise it sets `Content-Type: application/x-protobuf` and sends |
| HttpClientModel.SendRequestWithCookie | packages/api-client/src/main/shims/node/cookie.ts:88-102 | a failed cookie load rejects; otherwise the call is `_sendRequest` of the config with the live cookie attached, as `SendWithCookieSpec` |
| HttpClientProps.SendSucceeds | packages/api-client/src/main/http/HttpClient.ts:109-116 | a response resolves the call with it and leaves the state CONNECTED; one request with the credentials went out; token and cookie store are unchanged |
| HttpClientProps.SendNetworkFailure | packages/api-client/src/main/http/HttpClient.ts:121-127 | a network error rejects with a NetworkError naming the method and URL and leaves the state DISCONNECTED; nothing is retried |
| HttpClientProps.SendOtherFailure | packages/api-client/src/main/http/HttpClient.ts:129-145 | every other failure outside the refresh case rejects at once, as the mapped backend error or the original error, and only uses up its reply and records its request |
| HttpClientProps.SendRefreshes | packages/api-client/src/main/http/HttpClient.ts:133-139 | for a FORBIDDEN invalid-credentials backend error on a first try with a token held, the call refreshes; a failed refresh is the call's failure, a successful one is followed by a re-send as a first try |
| HttpClientProps.RetryAfterRefresh | packages/api-client/src/main/http/HttpClient.ts:138 | after a successful refresh the call is the re-send of the edited config, again with `firstTry = true` |
| HttpClientProps.RefreshFailureLogsOut | packages/api-client/src/main/http/HttpClient.ts:156-160 | any failure of the access request surfaces as "Got logged out from backend." and nothing is retried |
| HttpClientProps.RefreshGrants | packages/api-client/src/main/http/HttpClient.ts:149-164 | an access reply granting token `t`, whatever token was held before: the refresh sends one request; it succeeds with the body and installs `t` unless a cookie the reply sets cannot be stored; then it rejects with the store's error, and the token and the cookie store stay as they were; after a success the slot loads as the last cookie the reply set, or is untouched when none parsed |
| HttpClientProps.RefreshAfterGrant | packages/api-client/src/main/http/HttpClient.ts:149-164 | once the access request has been answered with a grant setting no cookie, the refresh succeeds with the body and the granted token is installed, nothing else changing |
| HttpClientProps.AccessRefusedRefreshes | packages/api-client/src/main/shims/node/cookie.ts:88-102 | an access request refused for invalid credentials while a token is held runs a refresh of its own and is sent again: three requests, then the grant |
| HttpClientProps.NestedRefresh | packages/api-client/src/main/http/HttpClient.ts:133-164 | a request refused, whose access request is refused in turn, then granted twice, succeeds after five requests in all, with the granted token held and the cookie store unchanged |
| HttpClientProps.CycleStep | packages/api-client/src/main/http/HttpClient.ts:134-138 | a refusal followed by a granting refresh comes back to a first try of the same request, two requests and two replies later |
| HttpClientProps.RefreshCyclesUnbounded | packages/api-client/src/main/http/HttpClient.ts:137-138 | for every n, a request refused n times for invalid credentials, each time after a successful refresh, goes out 2n + 1 requests in all and then succeeds: there is no retry cap |
| HttpClientProps.SendFollows | packages/api-client/src/main/http/HttpClient.ts:86-147 | a call only appends to the sent requests and the events, only uses up replies, never changes which tables fail, and keeps the event log consistent |
| HttpClientProps.RefreshFollows | packages/api-client/src/main/http/HttpClient.ts:149-164 | the same for a refresh |
| HttpClientProps.PostAccessFollows | packages/api-client/src/main/http/HttpClient.ts:166-181 | the same for an access request |
| HttpClientProps.SendWithCookieFollows | packages/api-client/src/main/shims/node/cookie.ts:88-102 | the same for a cookie-carrying request |
| HttpClientProps.SendSentFirst | packages/api-client/src/main/http/HttpClient.ts:91-113 | the first request handed to the transport is the config with the base URL and the credentials attached |
| HttpClientProps.PostAccessSendsRawToken | packages/api-client/src/main/http/HttpClient.ts:166-181 | the access request that goes out is a credentialled `post` to the access URL with the raw held token as `Authorization`, and it has `Cookie: zuid=<zuid>` exactly when the cookie has not expired |
| CookieShim.CookieFromRead | packages/api-client/src/main/shims/node/cookie.ts:37-55 | a missing record loads as `Cookie('', '0')`; any other read error is rethrown; a stored `{expiration, zuid}` loads as `Cookie(zuid, expiration)`; non-object content (other than `null`) loads as `Cookie('', '0')` |
| CookieShim.LoadExistingCookie | packages/api-client/src/main/shims/node/cookie.ts:37-55 | reads the fixed slot and maps the outcome as `CookieFromRead` does |
| CookieShim.SetInternalSpec | packages/api-client/src/main/shims/node/cookie.ts:57-69 | create, or update when the record exists: the slot is overwritten with `{expiration, zuid}` unless the table fails, and then the error is rethrown and nothing changes |
| CookieShim.SetInternalCookie | packages/api-client/src/main/shims/node/cookie.ts:57-69 | the engine calls and the new store are those of `SetInternalSpec` |
| CookieShim.LoadAfterSetInternal | packages/api-client/src/main/shims/node/cookie.ts:37-69 | after a successful `setInternalCookie(c)`, loading gives `c` back |
| CrudStore.PutReadBack | packages/api-client/src/main/shims/node/cookie.ts:37-69 | after a record is written, reading it gives it back unless reads of its table fail, and every other record reads as before |
| CookieShim.ParsedCookies | packages/api-client/src/main/shims/node/cookie.ts:72-75 | an array header is parsed line by line, a non-empty single header as one line, and an absent or empty header gives nothing |
| CookieShim.SaveCookie | packages/api-client/src/main/shims/node/cookie.ts:71-85 | the loop saves the parsed cookies in order, skipping unparsable ones and stopping at the first failing save; the result is the response body |
| CookieShim.SaveAllEffect | packages/api-client/src/main/shims/node/cookie.ts:76-81 | saving the parsed cookies is one overwrite with the last one that parsed; with none the store is unchanged; when writes to the cookie table fail it rejects with no change |
| CookieShim.SaveCookieThenLoad | packages/api-client/src/main/shims/node/cookie.ts:71-85 | `saveCookie` returns the response body unchanged; it fails exactly when a cookie parsed and writes to the table fail, and then changes nothing; afterwards the slot loads as the last parsed cookie (unless reads fail), or is untouched when none parsed |
| CookieShim.WithCookie | packages/api-client/src/main/shims/node/cookie.ts:93-98 | a live cookie adds `Cookie: zuid=<zuid>`, keeps every other header and turns credentials on; an expired one leaves the config as it was |
| StoreServiceModel.SaveDataSpec | packages/travis-status-bot/src/StoreService.ts:47-53 | the save leaves the failing tables as they are, and a failure is swallowed with no change |
| StoreServiceModel.LoadDataSpec | packages/travis-status-bot/src/StoreService.ts:55-68 | the load gives the document in slot `full` of `travis-data`, and null exactly when the read fails |
| StoreServiceModel.SetFlagSpec | packages/travis-status-bot/src/StoreService.ts:70-76 | add and remove store the flag under the id, creating or overwriting; the key is present afterwards; a failure is swallowed with no change |
| StoreServiceModel.CheckSpec | packages/travis-status-bot/src/StoreService.ts:104-120 | an id is subscribed exactly when its record reads back `{isSubscribed: true}`; any read failure gives false |
| StoreServiceModel.SubscribersExactly | packages/travis-status-bot/src/StoreService.ts:122-147 | an id is among the subscribers exactly when it is subscribed, and no id is listed twice |
| StoreServiceModel.SaveThenLoad | packages/travis-status-bot/src/StoreService.ts:47-68 | after saving a document, loading gives it back unless the table fails |
| StoreServiceModel.SetFlagThenCheck | packages/travis-status-bot/src/StoreService.ts:149-155 | after setting a flag the id reads back that flag and its key stays in the table (remove does not delete); other ids are unaffected |
| StoreServiceModel.SetFlagSubscribers | packages/travis-status-bot/src/StoreService.ts:122-155 | after add the id is a subscriber, after remove it is not, and no other id changes; the engine stays well formed |
| StoreServiceModel.TablesIndependent | packages/travis-status-bot/src/StoreService.ts:47-76 | saving the cache does not change the subscribers, and setting a flag does not change the cache |
| StoreServiceModel.WritesKeepTidy | packages/travis-status-bot/src/StoreService.ts:47-76 | each table keeps holding only its own kind of record |
| StoreServiceModel.StoreService.SaveDataToCache | packages/travis-status-bot/src/StoreService.ts:47-53 | the new store is `SaveDataSpec`; no error is reported |
| StoreServiceModel.StoreService.LoadDataFromCache | packages/travis-status-bot/src/StoreService.ts:55-68 | the result is `LoadDataSpec` of the store |
| StoreServiceModel.StoreService.AddSubscriber | packages/travis-status-bot/src/StoreService.ts:70-76 | the new store is `SetFlagSpec` with `true` |
| StoreServiceModel.StoreService.RemoveSubscriber | packages/travis-status-bot/src/StoreService.ts:149-155 | the new store is `SetFlagSpec` with `false` |
| StoreServiceModel.StoreService.CheckSubscription | packages/travis-status-bot/src/StoreService.ts:104-120 | the result is `CheckSpec` of the store |
| StoreServiceModel.StoreService.GetSubscribers | packages/travis-status-bot/src/StoreService.ts:122-147 | the loop returns the listed keys that are subscribed, in listing order, and nothing when the listing fails |
| NotificationServiceModel.NewIncidents | packages/travis-status-bot/src/TravisNotificationService.ts:70-85 | null when nothing is received; everything received when the cache has no incidents; otherwise the received incidents whose id is not cached, in received order and with their multiplicity (the order-keeping `Filter`), or null when there are none; never an empty list |
| NotificationServiceModel.NewIncidentsAreNew | packages/travis-status-bot/src/TravisNotificationService.ts:82-83 | every reported incident was received, and no reported id is in the cache |
| NotificationServiceModel.SameDocumentNothingNew | packages/travis-status-bot/src/TravisNotificationService.ts:70-85 | receiving the cached document again reports nothing |
| NotificationServiceModel.NotificationService.UpdateData | packages/travis-status-bot/src/TravisNotificationService.ts:87-116 | the cache is read before it is overwritten; with no fetched document nothing is saved or notified; otherwise the document is saved and subscribers are notified exactly when the diff against the old cache is non-null, with that diff; with no old cache there is no diff |
| NotificationServiceModel.NotificationService.GetStatus | packages/travis-status-bot/src/TravisNotificationService.ts:59-68 | the fetched document when there is one, otherwise what the cache held; with a fetched document the cache is saved and subscribers get the diff against the old cache when it is non-null; without one nothing changes |
| NotificationServiceModel.FirstRunSilentThenCached | packages/travis-status-bot/src/TravisNotificationService.ts:89-103 | without a cached document the first update computes no diff, and the cache then holds the fetched document |
| NotificationServiceModel.RepeatUpdateSilent | packages/travis-status-bot/src/TravisNotificationService.ts:87-116 | an update that fetches the document just cached notifies nobody |
| FeedServiceModel.FeedDiff | packages/travis-status-bot/src/TravisFeedService.ts:56-72 | null when nothing is received; everything when the stored feed has no incidents; otherwise the received incidents whose id the stored feed holds, in received order and with their multiplicity, or null when there are none |
| FeedServiceModel.DiffsSplitReceived | packages/travis-status-bot/src/TravisFeedService.ts:68-70 | when both the stored and the received document have incidents, each received incident is in exactly one of the feed diff and the notification diff |
| FeedServiceModel.SameFeedReportsAll | packages/travis-status-bot/src/TravisFeedService.ts:68-71 | fetching the stored feed again reports all of its incidents |
| FeedServiceModel.FeedService.GetNewIncidents | packages/travis-status-bot/src/TravisFeedService.ts:56-72 | the result is `FeedDiff` against the stored feed |
| FeedServiceModel.FeedService.UpdateFeed | packages/travis-status-bot/src/TravisFeedService.ts:74-83 | a failed fetch rejects with nothing changed; otherwise the diff is taken against the old feed, the feed is overwritten, and subscribers are notified exactly when the diff is non-null |
| FeedServiceModel.FeedService.GetFeed | packages/travis-status-bot/src/TravisFeedService.ts:51-54 | the fetched document is returned and stored, and subscribers get its diff against the old feed when that is non-null; a failed fetch rejects (`None` in the model) and changes nothing |
| StatusBotModel.FeedLine | packages/travis-status-bot/src/TravisStatusBot.ts:79-81 | each line starts with `- ` and ends with a newline; with no date and no link it is `- "name"` |
| StatusBotModel.FeedLineStart | packages/travis-status-bot/src/TravisStatusBot.ts:79-81 | a line starts with `- `, then `formatDate(created_at): ` exactly when the incident has a creation date, then the quoted name |
| StatusBotModel.FeedLineEnd | packages/travis-status-bot/src/TravisStatusBot.ts:79-81 | a line ends with the quoted name, then ` (shortlink)` exactly when the incident has a short link, then a newline |
| StatusBotModel.AppendLinesIsConcat | packages/travis-status-bot/src/TravisStatusBot.ts:78-82 | the reduce appends the incidents' lines to the header, in order |
| StatusBotModel.FeedReply | packages/travis-status-bot/src/TravisStatusBot.ts:75-86 | "No items found :(" when there are no incidents, otherwise the header followed by the lines of the first (at most) five |
| StatusBotModel.FeedReplyIgnoresTail | packages/travis-status-bot/src/TravisStatusBot.ts:78 | incidents after the fifth do not change the reply |
| StatusBotModel.LinesAppend | packages/travis-status-bot/src/TravisStatusBot.ts:78-82 | the lines of a list are the lines of its parts, in order |
| StatusBotModel.FeedReplySingle | packages/travis-status-bot/src/TravisStatusBot.ts:75-86 | one incident gives the header and its single line |
| StatusBotModel.TextEffects | packages/travis-status-bot/src/TravisStatusBot.ts:70-99 | exactly `/feed`, `/help` and `/subscribe` get a reply; each reply is a LIKE reaction on the message followed by one text to the same conversation: the feed reply, the help text with the version, or the not-implemented notice; any other text sends nothing |
| StatusBotModel.EventEffects | packages/travis-status-bot/src/TravisStatusBot.ts:51-68 | events of other kinds, and events without a conversation, send nothing; a text in a conversation gets `TextEffects`; a connection request in a conversation gets the connection answer unless it was cancelled |
| StatusBotModel.TextNeverConnects | packages/travis-status-bot/src/TravisStatusBot.ts:53-64 | a text event never reaches the connection branch through the fall-through |
| StatusBotModel.ConnectionRequestAnswered | packages/travis-status-bot/src/TravisStatusBot.ts:59-64 | a connection request in a conversation is accepted and greeted with the help text, unless it was cancelled |
| StatusBotModel.MainHandler.HandleText | packages/travis-status-bot/src/TravisStatusBot.ts:70-99 | the messages sent are `TextEffects` |
| StatusBotModel.MainHandler.HandleConnectionRequest | packages/travis-status-bot/src/TravisStatusBot.ts:101-104 | the acceptance is sent, then the help text |
| StatusBotModel.MainHandler.HandleEvent | packages/travis-status-bot/src/TravisStatusBot.ts:51-68 | the messages sent are `EventEffects` |

## Left out

- The axios transport and the limit it applies (`maxContentLength`) are replaced by the reply oracle. The error-logging interceptor is not modelled.
- A synchronous throw and a rejected promise are both a `Failure` in the model. `postAccess` (a URI decode) and `sendProtocolBuffer` (no headers object) throw before returning a promise. The only caller of `postAccess` awaits it inside `try`, so the refresh's result is the same either way.
- HttpClientProps.SendNetworkFailure: the NetworkError message is built from the method and URL of the config the client sent. This stands in for `error.config`, the copy axios attaches to the error (HttpClient.ts:123). Axios may normalise that copy, for instance by lower-casing the method or joining the URL with the base URL, so the exact message `SendNetworkFailure` states is an assumption of the model.
- `TransportExhausted` is not part of the source. It is what the model returns when the reply oracle is empty.
- The `PriorityQueue` behind `sendRequest` is not modelled. It is a concurrency library, and `sendRequest` is a direct first-try call here.
- Concurrency is not modelled. Interleaved calls, and whether concurrent refreshes share one access request, are outside the model. The code has no such sharing.
- The `EventEmitter` is not modelled. Emitted events are recorded in the ghost sequence `events`.
- `Cookie.isExpired`, `decodeURIComponent` and the `tough-cookie` parser are parameters of the client, each an uninterpreted function. A decode that throws is `None`.
- `BackendErrorMapper.map` is not modelled. The rejection carries the error body as `BackendError(data)`.
- `AccessTokenStore` is the client's `accessToken` field. `updateToken` is modelled as installing the body's token when the body has string `token_type` and `access_token`, and keeping the old one otherwise. Its code is not part of this model.
- The values of `AUTH_TABLE_NAME`, `AUTH_COOKIE_KEY`, `AuthAPI.URL.ACCESS`, `StatusCode.FORBIDDEN`, `BackendErrorLabel.INVALID_CREDENTIALS` and the content types are defined elsewhere. The model uses their conventional values, and no proved property depends on them.
- The storage engine's internals are not modelled. It is a map with not-found, already-exists and I/O failures. An I/O failure is fixed per table and per kind of operation (reads and listings, or writes) for the engine's whole life. `update` and `updateOrCreate` are modelled as overwriting the record.
- `readAllPrimaryKeys` lists keys in creation order. That order is a choice of the model; the engine promises none, and no proved property depends on it.
- SaveAllEffect: a save that fails after an earlier save in the same `saveCookie` loop succeeded (a partial save) cannot occur, because write failures are fixed per table. The lemma states all-or-nothing for that reason.
- SaveCookieThenLoad: for the same reason, the outcome "the first cookies were stored, then a later save failed" is not represented.
- HttpClientModel.HttpClient.RefreshAccessToken: the storage-error path after a granted access request needs reads of the cookie table to work and writes to fail (see `RefreshGrants`). A failure that appears between the load and the save of the same refresh is not represented.
- CookieFromRead: stored `null` is not modelled. In the source, `typeof null` is `'object'`, so cookie.ts:51-52 reads `null.zuid` and throws a TypeError. The model's stored content has no `null`.
- The error-type tests by constructor name are not modelled. In StoreService they only decide whether an error is logged.
- `HttpClientModel.SendRequestWithCookie` requires the engine it is given to be the client's own cookie store. That is the only way the client calls it.
- Cookie content that is an object without `zuid` or `expiration` fields is not modelled. The stored content is either the persisted object or a non-null non-object.
- Fetches, cron jobs and logging in the bot services are not modelled. A fetch result is an input, with `None` for a failed fetch. In the feed service `None` stands for a rejection: `requestFeedData` has no catch, so `updateFeed` and `getFeed` reject with the fetch error. In the notification service it stands for the null `requestJSONData` returns after a failure with an HTTP status. A failure without a response, or a document without `incidents` or `components`, makes its catch block throw, and `updateData` and `getStatus` then reject; the model does not represent those rejections. The log lines that read `data.incidents.length` are left out, so a document without an incidents field does not crash the model.
- `StatusBotModel.MainHandler.HandleText` takes the feed's incidents as an input. `TravisFeed.getFeed` fetches them over HTTP and is not part of this model. `formatDate` is an uninterpreted function, and the version string is a parameter.
- Only the fields the bot reads are modelled. For an incident these are `id`, `name`, `created_at` and `shortlink`; for a document, `incidents`. The two fetch functions also read `components`, only to log its length (TravisFeedService.ts:87, TravisNotificationService.ts:121). An absent or empty string is the empty string.
- `getFeedData` and `updateFeedData` are called on the store but not defined in StoreService.ts. They are modelled as a single feed slot (`FeedSlot`).
- `StoreService.init`, `TravisNotificationService.init` and `TravisFeedService.init` only start timers and log.

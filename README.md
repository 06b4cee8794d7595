# flask-miniapp client core, modelled in Dafny

This project models the client layer of the flask-miniapp uni-app front end: its HTTP transport, its credential and user stores, its request interceptor, and the helpers behind the comment, favourites, cart and upload calls. The host platform does the I/O:
- `uni.request`, `uni.uploadFile` and `fetch`
- storage, toasts, modals, navigation and events

None of it is modelled as behaviour. A request's reply, a promise's fate, the user's answer to a modal and the clock are inputs. Storage is a map from key to number. Host calls are returned as lists of effects.

One module per source file:

| module | file | source |
|---|---|---|
| `Values` | values.dfy | JavaScript values, truthiness, `String(...)`, `includes`/`startsWith`, the business envelope `{ code, message, success, data }`, and the fate of a promise (fulfilled, rejected with a message, or never settled) |
| `Http` | http.dfy | src/http/http.ts: the four option builders, the classification of one reply, and the single-flight refresh coordinator |
| `TokenStore` | token_store.dfy | src/store/token.ts |
| `UserStore` | user_store.dfy | src/store/user.ts |
| `Interceptor` | interceptor.dfy | src/http/interceptor.ts |
| `CommentApi` | comment.dfy | src/api/comment.ts |
| `FavoriteApi` | favorite.dfy | src/api/favorite.ts |
| `CartApi` | cart_api.dfy | src/api/cart.ts |
| `CartActions` | cart_actions.dfy | src/utils/cart.ts |
| `Upload` | upload.dfy | the upload part of src/api/foo.ts |

The coordinator of src/http/http.ts is built in two layers:
- A pure state machine (`Http.Step`, `Http.Run`) over two events: a 401 that may be refreshed, and the settlement of the refresh call.
- A class (`Http.Coordinator`) that holds the module variables `refreshing` and `taskQueue` and is proved to follow that machine.

The lemmas about the machine give the single-flight guarantee:
- any number of 401s during one episode start exactly one refresh call;
- a successful refresh re-issues every queued request once, in arrival order;
- a failed refresh re-issues none.

Stores and the interceptor's options object are classes whose methods update fields in place. Their contracts tie the new state to specification functions, and the lemmas are proved about those functions.

Behaviours of the code that are easy to miss:
- A queued 401 request is not rejected when it is queued. Its promise adopts the fate of the re-issued request, and after a failed refresh it never settles.
- A 2xx reply whose business code is 401 (or anything except 0, 200 and 429) throws inside the reply callback. The request's promise never settles, and such a reply never reaches the refresh path.
- The re-login modals and the network-error toast are shown whatever `hideErrorToast` says.
- A non-2xx reply with status 429, not only business code 429, is treated as rate limited.
- `serializeQuery` in src/api/comment.ts is defined but never called. The comment wrappers pass their parameters to the transport, where the interceptor's `stringifyQuery` serialises them. It is modelled all the same.
- On native targets `uploadFile` ignores its `name` argument: the form field is always `file`.

## Model

| member | source | states |
|---|---|---|
| `Values.MessageOr` | src/http/http.ts:57-60 | `message \|\| fallback`: the message when it is present and non-empty, else the fallback; never empty when the fallback is not |
| `Http.Build` | src/http/http.ts:208-261 | each field of the builders' literal comes from the overrides when they set it, else from the arguments; `hideErrorToast` is set only by the overrides; without overrides the literal is exactly the arguments |
| `Http.HttpGet` | src/http/http.ts:208-216 | a GET with no body unless the overrides add one; without overrides exactly url, query and header |
| `Http.HttpPost` | src/http/http.ts:226-235 | a POST whose body is `data` unless overridden |
| `Http.HttpPut` | src/http/http.ts:239-248 | a PUT whose body is `data` unless overridden |
| `Http.HttpDelete` | src/http/http.ts:253-261 | a DELETE with no body unless overridden |
| `Http.Toast` | src/http/http.ts:34-37 | a toast is shown exactly when `hideErrorToast` is false |
| `Http.Classify` | src/http/http.ts:26-196 | each reply has exactly one outcome, each stated as an if-and-only-if on status, code, URL, mode and refresh token: (1) a network failure always toasts; (2) a 2xx reply resolves with the unchanged envelope exactly when its code is 0 or 200; (3) a 2xx reply with code 429 is rate limited; (4) a 2xx reply with any other code hangs; (5) a non-2xx 401 to a login, auth or register URL is rejected at once; (6) a non-2xx 401 without refresh capability gets the re-login prompt of its mode; (7) a non-2xx 401 with a refresh token is queued; (8) a non-2xx 429 by status or code is rate limited; (9) everything else is rejected with the server message or `请求错误` |
| `Http.FateOf` | src/http/http.ts:16-198 | the request's promise is fulfilled exactly for a resolved reply, stays pending exactly when the reply hangs or is queued, and is otherwise rejected with the envelope's message (the network failure has none) |
| `Http.RefreshCallCannotRecurse` | src/http/http.ts:49-62 | the refresh endpoint is a login URL, so its own 401 is rejected directly and is never queued behind the refresh |
| `Http.SuccessStatusWithAuthCodeHangs` | src/http/http.ts:42-49 | a 2xx reply with business code 401 neither settles nor reaches the refresh path |
| `Http.IsLoginUrl` | src/http/http.ts:51-53 | any address under `/login`, `/auth` or `/register` counts as a login request; an address without `/` never does |
| `Http.Step` | src/http/http.ts:115-168 | an auth failure joins the queue, sets the flag and starts a refresh exactly when none runs; a settlement returns to rest and re-issues exactly the queue on success, nothing on failure |
| `Http.Run` | src/http/http.ts:115-168 | a history ending in a settlement ends at rest; a history without settlements only grows the queue, and the flag is set once any failure arrived |
| `Http.RunKeepsConsistent` | src/http/http.ts:115-168 | from a consistent state, every history keeps the queue non-empty exactly while a refresh is in flight |
| `Http.FailuresWhileRefreshing` | src/http/http.ts:115-123 | while a refresh is in flight, further 401s only join the queue, in order, and start nothing |
| `Http.SingleFlight` | src/http/http.ts:115-123 | from rest, any non-empty run of 401s starts exactly one refresh and queues every request, the first included, in arrival order |
| `Http.Episode` | src/http/http.ts:115-168 | a whole episode makes one refresh call and ends at rest; success re-issues exactly the queued requests in order and shows the success toast; failure re-issues none and shows the re-login modal |
| `Http.QueuedPromises` | src/http/http.ts:113-168 | after an episode, each queued request's own promise adopts the fate of the re-issue of that very request when the refresh succeeded (`resolve(http(options))`), and never settles when it failed |
| `Http.RefreshCallsMatchSettlements` | src/http/http.ts:115-168 | over any history where the refresh settles only while in flight, the refresh calls started plus the one in flight at the start equal the settlements plus the one in flight at the end, so no second refresh is ever started while one runs |
| `Http.Coordinator.constructor` | src/http/http.ts:10-11 | the coordinator starts at rest: not refreshing, empty queue |
| `Http.Coordinator.OnAuthFailure` | src/http/http.ts:115-123 | the request is appended to the queue and the flag is set; the refresh starts exactly when none was running; this is the machine's step |
| `Http.Coordinator.OnRefreshSettled` | src/http/http.ts:125-168 | the flag and queue are cleared whatever the result; on success the effects re-issue exactly the old queue in order, on failure nothing is re-issued; this is the machine's step |
| `Http.Coordinator.HandleReply` | src/http/http.ts:26-196 | the outcome is `Classify`'s; only a queued outcome touches the flag and the queue, as the machine's auth-failure step |
| `Http.AnswerReloginPrompt` | src/http/http.ts:65-164 | either answer logs out once the logout call settles, and while it has not settled neither the credentials nor the user record change; only confirming navigates to the login page, and after a failed refresh only once the logout has settled |
| `TokenStore.InitialInfo` | src/store/token.ts:21-31 | the empty record has the double shape exactly in double-token mode |
| `TokenStore.RefreshTokenOf` | src/http/http.ts:88 | the refresh token of a double-shape record; a single-shape or empty record has none |
| `TokenStore.IsTokenExpired` | src/store/token.ts:61-72 | a token without a stored expiry is expired; an unexpired one has its expiry still ahead of `now` |
| `TokenStore.IsRefreshTokenExpired` | src/store/token.ts:77-87 | always expired in single-token mode; an unexpired one has its stored expiry still ahead of `now` |
| `TokenStore.HasLoginInfo` | src/store/token.ts:269-282 | login information means a record of the mode's shape, never the empty record |
| `TokenStore.HasValidLogin` | src/store/token.ts:287-290 | a valid login has login information and a stored access expiry still ahead of `now` |
| `TokenStore.ValidToken` | src/store/token.ts:252-264 | empty when expired; otherwise a non-empty result is the token of the mode's shape, and a record of the other shape gives '' |
| `TokenStore.StoredExpiries` | src/store/token.ts:39-56 | the single shape writes `now + expiresIn*1000` under the access key; the double shape writes both expiries from their own fields; every other key is kept |
| `TokenStore.LoggedOut` | src/store/token.ts:205-215 | the record is the mode's empty one; both expiry keys and `token` are removed and every other stored key is kept |
| `TokenStore.FreshLoginLasts` | src/store/token.ts:39-72 | after storing a record of the mode's shape with positive lifetime, the token is unexpired exactly until `now + lifetime*1000`, and the user has a valid login exactly then and only when the token is non-empty |
| `TokenStore.ValidTokenIffLogin` | src/store/token.ts:252-290 | the valid token is non-empty exactly when `hasLogin` holds |
| `TokenStore.ExpiryIsPermanent` | src/store/token.ts:61-72 | an expired token stays expired as time goes on |
| `TokenStore.LogoutIsFinalAndIdempotent` | src/store/token.ts:197-216 | after logout nobody is logged in at any time, the valid token is '', the refresh token counts as expired, and logging out again changes nothing |
| `TokenStore.Store.constructor` | src/store/token.ts:33-37 | a fresh store holds the empty record of its mode |
| `TokenStore.Store.SetTokenInfo` | src/store/token.ts:39-56 | stores the record and writes the expiries of its shape |
| `TokenStore.Store.Logout` | src/store/token.ts:197-216 | once the remote logout settles, fulfilled or rejected, the state is `LoggedOut` and the user store is cleared; until then nothing changes |
| `TokenStore.Store.RefreshToken` | src/store/token.ts:222-245 | the API is called exactly in double mode with a double record whose refresh token is non-empty; otherwise it rejects with the source's two messages; a fulfilled call stores the new record, and nothing else changes state |
| `TokenStore.Store.TryGetValidToken` | src/store/token.ts:296-308 | a refresh is tried only when the valid token is empty, the mode is double and the refresh token is unexpired; a failed refresh yields ''; a successful one yields the valid token of the new state |
| `UserStore.WithDefaultAvatar` | src/store/user.ts:23-30 | the avatar is never empty afterwards; a falsy avatar becomes the default one and nothing else changes |
| `UserStore.Merged` | src/store/user.ts:71 | every key present in the patch overrides the record's field; every other field is kept |
| `UserStore.UpdatePayload` | src/store/user.ts:60-64 | the payload always has an id, the current one unless the patch brings its own, and otherwise exactly the patch's keys |
| `UserStore.MergedEmpty` | src/store/user.ts:71 | an empty patch changes nothing |
| `UserStore.DefaultingIdempotent` | src/store/user.ts:26-29 | defaulting the avatar twice is defaulting it once |
| `UserStore.Store.constructor` | src/store/user.ts:10-21 | a fresh store holds `{ id: null, username: '', nickname: '', avatar: default }` |
| `UserStore.Store.SetUserInfo` | src/store/user.ts:23-30 | stores the record with its avatar defaulted |
| `UserStore.Store.SetUserAvatar` | src/store/user.ts:31-35 | changes the avatar field only |
| `UserStore.Store.ClearUserInfo` | src/store/user.ts:37-40 | back to the initial record, whatever the store held |
| `UserStore.Store.FetchUserInfo` | src/store/user.ts:45-51 | on success stores the record in `res.data` through `setUserInfo` and returns the whole envelope `res`; otherwise the state is unchanged and the fate passes on |
| `UserStore.Store.UpdateUserInfo` | src/store/user.ts:56-80 | the payload is built from the old state; on success the state is the old record merged with the patch, avatar defaulted; a failure is rethrown and the state is unchanged |
| `Interceptor.Separator` | src/http/interceptor.ts:17-22 | `&` exactly when the address already contains `?`, else `?` |
| `Interceptor.WithQuery` | src/http/interceptor.ts:15-23 | without a query object the address is unchanged; with one it is the address, then the separator, then the query string |
| `Interceptor.PrefixFor` | src/http/interceptor.ts:26-38 | the proxy prefix in an H5 build with the proxy on, the base address otherwise |
| `Interceptor.Prefixed` | src/http/interceptor.ts:25-40 | an address starting with `http` is kept; any other gets the prefix |
| `Interceptor.Authorization` | src/http/interceptor.ts:50-62 | `Bearer ` and the access token for the double shape, `Bearer ` and the token otherwise, with no check of expiry or emptiness |
| `Interceptor.FinalHeader` | src/http/interceptor.ts:44-62 | the caller's headers are kept, except that content type, platform and Authorization always overwrite them |
| `Interceptor.QueryKeepsAbsoluteness` | src/http/interceptor.ts:15-40 | appending the query never changes whether the address starts with `http` |
| `Interceptor.QueryMarksUrl` | src/http/interceptor.ts:15-23 | after the query step the address contains `?` and still begins with the caller's address |
| `Interceptor.FinalUrlLayout` | src/http/interceptor.ts:15-40 | the final address is prefix (only for a relative address), then the caller's address, then separator and query string (only with a query object, even when that string is empty) |
| `Interceptor.Options.constructor` | src/http/http.ts:19-20 | the copy handed to `uni.request` has the builder's fields and no timeout yet |
| `Interceptor.Options.Invoke` | src/http/interceptor.ts:13-65 | the address becomes `FinalUrl`, the timeout 60000 and the headers `FinalHeader`; method, query, body and toast switch are untouched |
| `CommentApi.Kept` | src/api/comment.ts:69-72 | the kept entries are exactly the entries whose value is not undefined, null or '' (so 0 and false are kept) |
| `CommentApi.KeptConcat` | src/api/comment.ts:69-72 | the filter keeps the entries' order: filtering a concatenation is the concatenation of the filtered parts |
| `CommentApi.PairsOfKept` | src/api/comment.ts:68-75 | one pair `encode(key)=encode(String(val))` per kept entry, in key order |
| `CommentApi.SerializeQuery` | src/api/comment.ts:67-76 | the loop yields the `&`-join of the pairs of the kept entries |
| `CommentApi.SerializedRoundTrip` | src/api/comment.ts:67-76 | with an encoder that never emits `&`, the result splits at `&` back into exactly those pairs, with no leading or trailing separator; it is '' exactly when every entry was dropped |
| `Values.SplitJoin` | src/api/comment.ts:75 | splitting a join at its separator gives the parts back when no part holds the separator |
| `CommentApi.RequestOf` | src/api/comment.ts:86-164 | the URL, method, query and body each of the six calls sends |
| `CommentApi.LikeRecord` | src/api/comment.ts:120-121 | the like toggle's record: the payload's fields, or `{}`, with `message` taken from the envelope (undefined when absent) |
| `CommentApi.Result` | src/api/comment.ts:86-164 | a wrapper fulfils exactly when the envelope has code 200 (the like toggle also accepts `success: true`), with `data`, the whole envelope, nothing or the like record; otherwise it throws the envelope's message or its own text; a transport rejection passes through and a pending transport stays pending |
| `CommentApi.CodeZeroPassesTransportOnly` | src/api/comment.ts:90-95 | a 2xx reply with code 0 fulfils the transport's promise, yet every wrapper but the like toggle with `success: true` throws |
| `CommentApi.ThroughTransport` | src/api/comment.ts:115-123 | through the transport, a wrapper fulfils exactly on a 2xx reply with code 200, or for the like toggle also with code 0 and `success: true` |
| `FavoriteApi.TypeName` | src/api/favorite.ts:7-10 | the enum's values are non-empty and hold no `&` |
| `FavoriteApi.ListEntries` | src/api/favorite.ts:103-109 | no entry is appended exactly when the type is absent and page and per_page are absent or 0 |
| `FavoriteApi.FavoriteListUrl` | src/api/favorite.ts:98-111 | the appends followed by the address choice give `ListUrl` |
| `FavoriteApi.ListUrlShape` | src/api/favorite.ts:103-111 | the address is the bare path exactly when no parameter is truthy; otherwise it is path, `?`, and a query that splits at `&` into `type`, `page`, `per_page` in that order, each present exactly when truthy |
| `FavoriteApi.ClearBody` | src/api/favorite.ts:150-151 | `{ item_type }` exactly when a type is given, else `{}` |
| `FavoriteApi.RemoveBody` | src/api/favorite.ts:136-139 | `{ favorite_ids }` holding exactly the given ids, in order |
| `FavoriteApi.RequestOf` | src/api/favorite.ts:74-158 | the URL, method and body each of the six calls sends |
| `FavoriteApi.Checked200` | src/api/favorite.ts:75-80 | fulfils with the unchanged envelope exactly when its code is 200; otherwise throws its message or the default; a rejection passes through and a pending transport stays pending |
| `FavoriteApi.ThroughTransport` | src/api/favorite.ts:74-158 | through the transport, every call fulfils with the envelope exactly on a 2xx reply with code 200; code 0 passes the transport and is then refused |
| `CartApi.ReduceIsSum` | src/api/cart.ts:103-105 | the `reduce` left fold from an accumulator is the accumulator plus the sum |
| `CartApi.SumPermutation` | src/api/cart.ts:94-105 | a sum does not depend on the order of the items |
| `CartApi.TotalQuantity` | src/api/cart.ts:103-105 | the sum of the quantities, 0 for an empty cart |
| `CartApi.TotalCents` | src/api/cart.ts:94-98 | the sum of `price*quantity` over the items (the item totals), 0 for an empty cart |
| `CartApi.TotalsAdditiveAndOrderFree` | src/api/cart.ts:94-105 | both totals are additive over concatenation and unchanged by any reordering |
| `CartApi.QuantityBoundsItems` | src/api/cart.ts:103-105 | with non-negative quantities, the total bounds every item's quantity |
| `CartApi.AddBody` | src/api/cart.ts:43-52 | `{ product_id, quantity }` with quantity 1 when omitted |
| `CartApi.RequestOf` | src/api/cart.ts:33-85 | GET and POST on `/miniapp/api/cart`, PUT and DELETE on `/miniapp/api/cart/{id}`, DELETE on `/miniapp/api/cart/clear`, with no query, header or toast switch |
| `CartActions.ErrorToast` | src/utils/cart.ts:80-91 | in priority order: a message holding `库存不足` gives `商品库存不足`; one holding `不存在` gives `商品不存在或已下架`; any other non-empty message is kept; none gives `添加失败`; never empty |
| `CartActions.ErrorToastIdempotent` | src/utils/cart.ts:80-91 | mapping a toast text again changes nothing: no fixed notice contains the key word of a higher-priority branch, so the priority order never re-maps one notice into another |
| `CartActions.FailureMessage` | src/utils/cart.ts:71-77 | the message the catch block sees: a rejection's own message, or for a refused envelope its message, '' when absent |
| `CartActions.LoginModal` | src/utils/cart.ts:29-45 | the login modal, then the login page exactly when confirmed, and no request |
| `CartActions.AddProductToCart` | src/utils/cart.ts:16-100 | `quantity` defaults to 1 and `showSuccess` to true; never rejects; without a login only the modal and false; otherwise loading and the `addToCart` request first; true exactly when the reply has code 200, and then `cartChanged` is emitted, with the success toast only when asked; any other settled reply ends with the mapped error toast and false; a reply that never settles leaves it pending |
| `CartActions.QuickAddToCart` | src/utils/cart.ts:108-124 | the confirmation modal first; a request only on confirmation with a login, and then it is the `addToCart` request for the product with the given quantity, 1 when omitted; the cart changes exactly when confirmed, logged in and accepted |
| `CartActions.BuyNow` | src/utils/cart.ts:131-174 | without a login only the purchase login modal and no request; with a login the `addToCart` request for the product with the given quantity, 1 when omitted, follows the loading indicator; the cart tab opens exactly when logged in and the item was added; never the success toast |
| `Upload.FileExtension` | src/api/foo.ts:73-84 | the listed MIME types map to `jpg`, `png`, `gif`, `webp`, `bmp` and `svg`; any other type gives `jpg` |
| `Upload.EffectiveMime` | src/api/foo.ts:104 | an empty blob type counts as `image/jpeg`, which maps to `jpg` |
| `Upload.FileName` | src/api/foo.ts:87-94 | the base name, one dot, then the extension, with nothing else added |
| `Upload.FileNameRoundTrip` | src/api/foo.ts:87-94 | a generated name `base.ext` splits at its last dot back into the base name and the extension: nothing else is added |
| `Upload.UploadPlan` | src/api/foo.ts:63-204 | H5: a blob or data URL is posted to the absolute upload address, with the Authorization header chosen like the interceptor's and the name generated from `name` (default `file`); any other path is refused with the source's message; native: the relative address and field `file` |
| `Upload.NativeIgnoresName` | src/api/foo.ts:177-185 | on native targets the plan depends on neither `name` nor the token record |
| `Upload.H5Result` | src/api/foo.ts:156-163 | the parsed result exactly when the response is ok, else an error naming status and status text |

## Left out

- Host I/O is not modelled as behaviour: `uni.request`, `uni.uploadFile`, `fetch`, storage calls, toasts, modals, navigation, `uni.$emit` and logging. Replies, promise fates, modal answers and the clock are inputs, and storage is a map.
- The code of `stringifyQuery`, `encodeURIComponent`, `getEnvBaseUrl`, `isDoubleTokenMode`, `ResultEnum`, `isDoubleTokenRes` and `isSingleTokenRes` is not part of this model. The first two are function parameters, the next two are constants or parameters, `ResultEnum` is the codes 0 and 200, and the shape guards are the two constructors of `TokenInfo`.
- TokenStore.Store.RefreshToken: the refresh reply is taken to be a token record. src/api/login.ts:55 resolves with the whole envelope, and what `setTokenInfo` then does with it depends on the shape guards above.
- Floating point: the `/100` of `calculateTotal` and `calculateItemTotal` and `formatPrice`'s `toFixed` are left out. Totals stay in integer cents.
- Vue and pinia reactivity is left out: `computed` caching and `persist: true`. Getters are functions of the state and the time.
- The clock does not advance inside one operation: `setTokenInfo`, `tryGetValidToken` and the getters all read the same `now`.
- A `null` or non-object response body, where the destructuring in the reply callback throws, is left out. Bodies are always envelopes.
- `setUserInfo` also writes the default avatar into the caller's object. That aliasing is not modelled; only the stored record is.
- `Partial<CustomRequestOptions>` overrides that explicitly set a key to `undefined` are not modelled. An override is either absent or a value.
- `Object.keys` order is the order of the query's entry list.
- CommentApi.LikeRecord: a payload that is a truthy string or array spreads its characters or elements into the record in the source. Here only an object payload contributes fields.
- A refresh call that never settles, for example because its own reply hangs, is an event that never happens. `refreshing` then stays set and later 401s only queue.
- The thin wrappers of src/api/login.ts, home.ts, article.ts and category.ts, the `foo`/`formUpload` examples of src/api/foo.ts, and `getCartItems`'s response type are not part of this model. Only the refresh URL of src/api/login.ts is used.
- The native upload's `JSON.parse` of the reply and the H5 fetch of the blob are I/O. The blob's type is an input.
- UserStore.Store.FetchUserInfo: reading `res.data` as a user record is not modelled. The record is an input beside the envelope.
- UserStore.Merged: a `Partial<IUserInfoRes>` patch can set a key to `undefined` explicitly, and the spread then writes `undefined` over that field. A patch key here is either absent or a value.
- Upload.FileExtension: the table is a plain object, so a blob type naming an inherited property such as `constructor` yields that property instead of `jpg`. "Any other type gives `jpg`" holds for every type that is not such a name, which includes every `type/subtype` string.
- Numbers in bodies, queries and envelopes are integers. A fractional value such as the `String(1.5)` that `serializeQuery` would write cannot be represented.

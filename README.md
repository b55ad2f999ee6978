# PunchOut procurement gateway — Dafny model

This project models the core of a Cloudflare-Workers gateway for cXML PunchOut
procurement. Buyers start a shopping session at a supplier catalog and send
back a cart as a `PunchOutOrderMessage`. The gateway validates, stores and
acknowledges that cart. The model covers:

- the request gateway (`src/libs/gateway.ts`): `:name` path templates compiled
  into anchored matchers, first-match dispatch by method and path, a global
  and a per-route middleware chain with first-response short-circuit, and the
  mapping of thrown errors to responses (module `Gateway`, class
  `Gateway.ApiGateway`; the repository's own tests are replayed in
  `GatewayExamples`);
- the two fixed-window rate limiters: per buyer (`BuyerRateLimit`) and per
  tenant row (`TenantRateLimit`);
- the key lock that guards order intake (`Lock`);
- `retry` with exponential backoff (`Retry`);
- the role-rank check and the API-key decision chain (`RoleAccess`,
  `ApiKeyAuth`);
- the order-intake pipeline `handlePunchOutOrderMessage` (`PunchoutOrder`)
  over an in-memory order / order-item / audit-log store (`Orders`);
- the order lifecycle services: modification, confirmation and status
  (`OrderModification`, `OrderConfirmation`, `OrderStatus`, and
  `OrderLifecycle` for how they meet the pipeline);
- the PunchOut setup handshake, the setup-response document and the
  order-message item mapping (`PunchoutService`, `Etl`, `Cxml`).

Stores are in-memory state. The cache behind the lock is a set of held
keys, and each rate-limit table is a map. The order tables are a map of
orders plus sequences of item rows and audit entries. Each stateful
operation is a method on a class, or on the `Orders.OrderDb` object. The
method is proved equal to a pure specification function, and the
properties are lemmas about that function. The current time, which the
source takes from `Date.now()`, is a parameter. Parsing and schema
validation of XML are not modelled: a service receives their outcome as a
`Cxml.Checked` value or a raw document. The outcomes of calls into
collaborators outside the model are also parameters: the currency
conversion, the batch insert's database error, the event publish and the
audit insert.

Where the design description and the code disagree, the model follows the
code:

- The lock has no expiry. `acquireLock` ignores its `timeout`.
- The pipeline does not release the lock when it fails after taking it. Its
  catch block only builds the error result.
- The rate limiters are plain read-then-write sequences. The model runs
  requests one after another.
- `retry` reports "Failed after 0 retries" on exhaustion, not an attempt
  count.
- The pipeline's result carries no order id.

## Model

| member | source | states |
|---|---|---|
| Gateway.NotFoundError | src/libs/gateway.ts:42-46 | a typed error with status 404 and message "Resource not found" unless one is given |
| Gateway.BadRequestError | src/libs/gateway.ts:48-52 | a typed error with status 400 and message "Bad request" unless one is given |
| Gateway.HandleErrorResponse | src/libs/gateway.ts:6-11 | a JSON `{error: message}` response, status defaulting to 400, content type application/json (for a status `Response` accepts; see "## Left out") |
| Gateway.HandleError | src/libs/gateway.ts:150-155 | an `ApiError` keeps its status and message (for a status `Response` accepts; see "## Left out"); any other thrown value becomes 500 "Internal Server Error" |
| Gateway.RepositoryErrorStatuses | src/libs/gateway.ts:6-11 | `NotFoundError`, `BadRequestError`, the generic 500 and `handleErrorResponse` with a valid or default status all give a status in 200-599 other than 204, 205 and 304 |
| Gateway.InternalErrorsDoNotLeak | src/libs/gateway.ts:150-155 | the 500 response is the same whatever was thrown, so no internal message leaks |
| Gateway.TypedErrorStatus | src/libs/gateway.ts:34-52 | `NotFoundError` maps to 404 and `BadRequestError` to 400, each with its own message |
| Gateway.Tokenize | src/libs/gateway.ts:77-80 | the template splits into literal characters and `:name` groups that spell it back exactly |
| Gateway.TokenizeCanonical | src/libs/gateway.ts:77 | the split is the greedy left-to-right replacement of `/:([\w]+)/g`: every group name is the longest word after its colon |
| Gateway.Compile | src/libs/gateway.ts:74-84 | `on`'s compilation: each `:name` becomes one `([^/]+)` group, names recorded left to right, other text kept, the whole anchored `^…$` |
| Gateway.CompileLiteral | src/libs/gateway.ts:86-90 | `onAsync` compiles `^path$` with no substitution and no parameter list |
| Gateway.TemplateWithTrailingParam | src/libs/gateway.ts:74-84 | a literal prefix followed by `:name` compiles to that literal then one group: the pattern text passed to `new RegExp` is `^prefix([^/]+)$`, params `[name]` |
| Gateway.Captures | src/libs/gateway.ts:93 | `url.match(regex)`: the captures found are non-empty, slash-free, one per group, and fill the template back to the path |
| Gateway.TryGroup | src/libs/gateway.ts:93 | a group first tries its longest slash-free run and backtracks to shorter ones, as the regex engine does |
| Gateway.CapturesIffMatches | src/libs/gateway.ts:116 | the matcher succeeds exactly when the anchored pattern accepts the whole path |
| Gateway.CapturesSound | src/libs/gateway.ts:116 | every capture found by the matcher is a match of the anchored pattern |
| Gateway.CapturesComplete | src/libs/gateway.ts:116 | every path the pattern accepts is found by the backtracking matcher |
| Gateway.CapturesLiteralPrefix | src/libs/gateway.ts:74-84 | literal template text must match the path character for character |
| Gateway.SingleGroupCaptures | src/libs/gateway.ts:77-79 | a lone parameter captures the rest of the path exactly when it is non-empty and has no `/` |
| Gateway.ZipParams | src/libs/gateway.ts:92-101 | the params record has exactly the recorded names as keys |
| Gateway.ZipParamsAt | src/libs/gateway.ts:96-98 | the i-th name gets the i-th capture unless a later occurrence of the name overwrites it |
| Gateway.FindRoute | src/libs/gateway.ts:116 | the chosen route has the request's method and accepts the path, and no earlier route does; none means no route accepts it |
| Gateway.FindBySource | src/libs/gateway.ts:65 | the first route whose compiled source equals the given source, or none when no route has it |
| Gateway.RunChainAppend | src/libs/gateway.ts:107-113 | running two middleware chains in turn equals running their concatenation; a stop in the first skips the second |
| Gateway.GlobalShortCircuit | src/libs/gateway.ts:107-113 | the first global middleware that answers decides the response; later middlewares, route lookup and handler do not run |
| Gateway.GlobalMiddlewareError | src/libs/gateway.ts:107-113 | an error thrown by a global middleware is mapped by `handleError` and nothing after it runs |
| Gateway.NoRouteIsNotFound | src/libs/gateway.ts:141-143 | with no route of that method accepting the path, the answer is 404 "Not Found", not an error |
| Gateway.FirstMatchWins | src/libs/gateway.ts:116 | the first accepting route handles the request; routes registered after it never matter |
| Gateway.RouteMiddlewaresThenHandler | src/libs/gateway.ts:119-138 | route middlewares run after params are set, with the same short-circuit rule; the handler sees the context they leave |
| Gateway.ApiGateway.Use | src/libs/gateway.ts:58-61 | appends to the global chain and leaves routes unchanged |
| Gateway.ApiGateway.UseOn | src/libs/gateway.ts:63-72 | appends to the first route whose source is `^path$`; otherwise no route changes; paths and handlers never change |
| Gateway.ApiGateway.On | src/libs/gateway.ts:74-84 | appends a route compiled by `Compile` with a ready handler and no middlewares |
| Gateway.ApiGateway.OnAsync | src/libs/gateway.ts:86-90 | appends a route compiled literally with a handler loader |
| Gateway.ApiGateway.ExtractParams | src/libs/gateway.ts:92-101 | the loop fills each recorded name with its positional capture, the last occurrence of a repeated name winning |
| Gateway.ApiGateway.HandleRequest | src/libs/gateway.ts:103-148 | the loop over global middlewares, route lookup and dispatch give the response `Handle` specifies (an `ApiError` with a status `Response` refuses is not modelled; see "## Left out") |
| Gateway.ApiGateway.HandleRoute | src/libs/gateway.ts:118-139 | parameter extraction, the route-middleware loop and the handler call give the response `Dispatch` specifies |
| GatewayExamples.UsersTemplateCompiles | src/libs/gateway.ts:74-84 | `/users/:id` compiles to the pattern text `^/users/([^/]+)$` passed to `new RegExp` with params `["id"]` |
| GatewayExamples.UsersCaptures | src/libs/gateway.ts:116 | `/users/123` captures `123`; `/users` and `/users/` are not matched |
| GatewayExamples.UserRouteAnswers | test/gateway.test.ts:71-87 | the `/users/:id` route answers `/users/123` with 200 "User ID: 123" and `/users` with 404 |
| GatewayExamples.MiddlewareWritesReachHandler | test/gateway.test.ts:89-110 | on the corrected router, what a global middleware writes into the context reaches the handler (the test's handler is `async`, so as written this request too is answered with 500) |
| GatewayExamples.UseOnMissesParameterRoute | src/libs/gateway.ts:63-72 | `useOn("/users/:id", m)` after `on` with that template attaches nothing, because the compiled source differs |
| GatewayExamples.ParamSourceIsNotTemplate | src/libs/gateway.ts:64-65 | a template with a parameter never has its own anchored text as compiled source |
| GatewayExamples.AsyncHandlerAnswersInternalError | src/libs/gateway.ts:130-136 | as written, an `async` handler registered with `on` is called as a loader and the request answers 500 |
| GatewayExamples.UserRouteAsWritten | src/libs/gateway.ts:130-136 | the test's own `async` handler gets 500 as written and 200 in the corrected model |
| BuyerRateLimit.Decide | src/middleware/rateLimiter.ts:16-46 | allowed exactly when a row is written; a written row stays within 1..100 when the old one was; a buyer with no row is allowed and gets count 1 starting now |
| BuyerRateLimit.InWindow | src/middleware/rateLimiter.ts:26-46 | inside a running window, a count below 100 goes up by one with the window start kept; at 100 the request is refused and nothing is written |
| BuyerRateLimit.After | src/middleware/rateLimiter.ts:12-42 | only the given buyer's row may change; every other buyer's row is kept |
| BuyerRateLimit.AfterInBounds | src/middleware/rateLimiter.ts:18-42 | every stored requestCount stays between 1 and 100 after any request |
| BuyerRateLimit.ReplayInWindow | src/middleware/rateLimiter.ts:34-46 | inside a running window the next requests are allowed exactly until the count reaches 100 |
| BuyerRateLimit.FirstHundredInWindow | src/middleware/rateLimiter.ts:16-46 | a new buyer sending requests within one window gets exactly the first 100 allowed; the 101st is refused |
| BuyerRateLimit.NewWindowAllows | src/middleware/rateLimiter.ts:26-33 | more than 60000 ms after the window start, a request is allowed and resets count to 1 and the start to now |
| BuyerRateLimit.WindowIncludesItsEnd | src/middleware/rateLimiter.ts:26-42 | at exactly 60000 ms there is no reset: a full window refuses, an allowed request keeps the start |
| BuyerRateLimit.RateLimitStore.RateLimit | src/middleware/rateLimiter.ts:8-47 | `rateLimit(buyerId)` returns `Decide`'s verdict, writes `After`'s table and keeps the count bound |
| TenantRateLimit.Normalize | src/services/rateLimiter.ts:20-30 | exactly when the count or time is falsy or the window has expired, the working values are 0 and now; otherwise they are the stored ones |
| TenantRateLimit.Decide | src/services/rateLimiter.ts:13-46 | an unknown tenant is "Tenant not found"; allowed exactly when a row is written; a written count is at most 100 |
| TenantRateLimit.After | src/services/rateLimiter.ts:38-46 | only the given tenant's row may change and no tenant is added or removed |
| TenantRateLimit.AfterInBounds | src/services/rateLimiter.ts:33-44 | a stored requestCount never exceeds 100 after any call |
| TenantRateLimit.ResetStartsNewWindow | src/services/rateLimiter.ts:20-30 | a null or zero count or time, or an expired window, allows and writes count 1 at now |
| TenantRateLimit.InWindow | src/services/rateLimiter.ts:33-46 | in a running window the count goes up by one with the start kept, until 100; then refused with no write |
| TenantRateLimit.ReplayInWindow | src/services/rateLimiter.ts:26-46 | inside a running window the next calls are allowed exactly until the count reaches 100 |
| TenantRateLimit.FirstHundredInWindow | src/services/rateLimiter.ts:20-46 | a tenant with no running window gets exactly the first 100 calls in one window allowed |
| TenantRateLimit.TenantStore.CheckRateLimit | src/services/rateLimiter.ts:9-47 | `checkRateLimit(tenantId)` returns `Decide`'s verdict or error and writes `After`'s table |
| Lock.Apply | src/utils/lock.ts:1-15 | acquire succeeds exactly when the key is absent and leaves it held; release removes the key and nothing else |
| Lock.HeldUntilReleased | src/utils/lock.ts:2-15 | a held key stays held, and every acquire of it fails, until it is released |
| Lock.MutualExclusion | src/utils/lock.ts:2-10 | of two acquires of one key with no release between, at most one succeeds |
| Lock.ResultsAppend | src/utils/lock.ts:1-15 | running two histories in turn is running their concatenation |
| Lock.TimeoutIrrelevant | src/utils/lock.ts:1 | changing the timeouts of a history changes neither the results nor the held keys |
| Lock.LockStore.AcquireLock | src/utils/lock.ts:1-11 | `acquireLock(key)` returns false and changes nothing when held, else stores the key and returns true |
| Lock.LockStore.ReleaseLock | src/utils/lock.ts:13-15 | `releaseLock(key)` removes the key, a no-op when absent, other keys unchanged |
| Retry.RetryRun | src/utils/retry.ts:1-12 | `fn` is called between 1 and retries+1 times, with one wait fewer than calls |
| Retry.WaitsDouble | src/utils/retry.ts:9-10 | the waits are delay, 2·delay, 4·delay, … |
| Retry.FirstSuccess | src/utils/retry.ts:2-10 | if call k+1 is the first success within the retries, its value is returned after exactly k+1 calls |
| Retry.AllFail | src/utils/retry.ts:4-6 | if every call fails, `fn` runs retries+1 times and the error is "Failed after 0 retries: " + last message |
| Retry.NeverThrowsCalledOnce | src/utils/retry.ts:2-3 | a first call that succeeds is returned with no further call and no wait |
| Retry.DefaultsTwoFailuresThenSuccess | src/utils/retry.ts:1-10 | with the defaults 3 and 1000, two failures then a success make 3 calls with waits 1000 and 2000 |
| Retry.RunRetry | src/utils/retry.ts:1-12 | the loop produces the outcome, call count and waits of the recursion |
| RoleAccess.Rank | src/middleware/roleBasedAccess.ts:5-9 | read-only, editor and admin have ranks 1, 2 and 3; other roles have none |
| RoleAccess.RoleBasedAccess | src/middleware/roleBasedAccess.ts:12-16 | the only possible answer is the 403 "Access Denied" JSON response; otherwise null |
| RoleAccess.DeniedIff | src/middleware/roleBasedAccess.ts:12-16 | denied exactly when both roles are ranked and the user's rank is lower |
| RoleAccess.RanksOrdered | src/middleware/roleBasedAccess.ts:5-14 | the ranks are ordered read-only < editor < admin, with the denials that follow |
| RoleAccess.Monotone | src/middleware/roleBasedAccess.ts:12-16 | a role that passes a requirement passes every ranked requirement of lower or equal rank |
| RoleAccess.AdminAndUnranked | src/middleware/roleBasedAccess.ts:12 | admin passes everything; an unranked role on either side is never denied |
| ApiKeyAuth.Authenticate | src/middleware/apiKeyAuth.ts:5-29 | the table changes only for a tenant key; a rejection is always one of the 401, 403 and 429 responses |
| ApiKeyAuth.MissingKeyFirst | src/middleware/apiKeyAuth.ts:8-10 | a missing or empty key is refused with 401 before any lookup |
| ApiKeyAuth.UserKeyWins | src/middleware/apiKeyAuth.ts:12-15 | a tenant-user key returns the user with the rate limit untouched |
| ApiKeyAuth.UnknownKeyRefused | src/middleware/apiKeyAuth.ts:17-20 | a key known to neither table is refused with 403 |
| ApiKeyAuth.TenantKeyRateLimited | src/middleware/apiKeyAuth.ts:23-28 | a tenant key runs `checkRateLimit` once: tenant when allowed, 429 when refused, its error passed on |
| ApiKeyAuth.FullWindowRefused | src/middleware/apiKeyAuth.ts:23-26 | a tenant with 100 calls in the running window is refused with 429 and its row is kept |
| ApiKeyAuth.LowerCaseKeyAccepted | src/middleware/apiKeyAuth.ts:6-15 | a request whose header is written `x-api-key` is read like `X-API-Key`: a user key in it authenticates that user |
| Http.Header | src/middleware/apiKeyAuth.ts:6 | `headers.get` finds a header exactly when its lower-cased name is stored, and returns the stored value |
| Http.HeaderIgnoresCase | src/middleware/apiKeyAuth.ts:6 | names that differ only in letter case read the same header |
| Orders.InsertOrder | src/db/schema.ts:108 | a second order with a taken buyer cookie is refused with nothing changed; otherwise a fresh id is used |
| Orders.InsertKeepsWellFormed | src/db/schema.ts:108 | every insert keeps buyer cookies unique and ids below the next id |
| PunchoutOrder.HeaderRow | src/services/punchoutOrderService.ts:83-90 | the header stores cookie, total and currency, with discount and tax "0" when absent |
| PunchoutOrder.BatchRows | src/services/punchoutOrderService.ts:144-150 | one row per item, in order, all with the same order id, each carrying its item's id, quantity and unit price; the item type is the item's type name, "physical" when it has none |
| PunchoutOrder.InsertOrderItemsInBatch | src/services/punchoutOrderService.ts:142-159 | success appends the batch rows; a store error becomes `{success:false, error}` with nothing written |
| PunchoutOrder.BatchRetriedOnce | src/services/punchoutOrderService.ts:105 | because the batch call never throws, `retry` calls it exactly once and waits nothing |
| PunchoutOrder.InvalidTouchesNothing | src/services/punchoutOrderService.ts:57-61 | an invalid message fails with the "Invalid PunchOutOrderMessage:" error before the lock, with nothing changed |
| PunchoutOrder.LockedBuyerRefused | src/services/punchoutOrderService.ts:65-70 | a held `lock:buyer:<cookie>` key fails with "Order is already being processed for this buyer" and stores nothing |
| PunchoutOrder.SuccessPath | src/services/punchoutOrderService.ts:65-131 | success runs lock, header, items, publish, audit, release in that order, stores one order and its rows, frees the lock |
| PunchoutOrder.FailureKeepsLock | src/services/punchoutOrderService.ts:132-138 | any failure after the lock is taken leaves the buyer's key held |
| PunchoutOrder.KeepsCookiesUnique | src/services/punchoutOrderService.ts:83-90 | whatever happens, the store keeps at most one order per buyer cookie |
| PunchoutOrder.ResubmissionFails | src/services/punchoutOrderService.ts:65-90 | after a processed order, the same cookie fails, stores nothing and leaves the key held, so later submissions are refused |
| PunchoutOrder.HandlePunchOutOrderMessage | src/services/punchoutOrderService.ts:54-139 | the step-by-step pipeline leaves the result, tables, held keys and steps `HandleOrder` specifies |
| PunchoutOrder.PlaceItems | src/services/punchoutOrderService.ts:105-131 | from the batch insert on, the pipeline's steps, tables and lock state are those of `HandleOrder`; the batch insert is done once, as `retry` around it makes one call (BatchRetriedOnce) |
| OrderModification.FirstMatch | src/services/orderModificationService.ts:15-21 | finds a row of this order with this item id exactly when one exists |
| OrderModification.UpdateRows | src/services/orderModificationService.ts:23-34 | each selected row gets the new quantity and unit price only; other rows unchanged |
| OrderModification.RemoveRows | src/services/orderModificationService.ts:35-40 | exactly the unselected rows remain, each as many times as before, and every selected row is gone |
| OrderModification.RemoveRowsAppend | src/services/orderModificationService.ts:35-40 | the delete keeps the order of the remaining rows: it distributes over concatenation |
| OrderModification.Modify | src/services/orderModificationService.ts:7-11 | a missing or non-PENDING order fails with "Order cannot be modified…" and nothing changes; only items change |
| OrderModification.OtherOrdersUntouched | src/services/orderModificationService.ts:14-50 | every other order's items are the same rows in the same order afterwards |
| OrderModification.AddAlwaysInserts | src/services/orderModificationService.ts:23-49 | `add` always inserts, even for an existing item id; update or remove of a missing item and other actions change nothing |
| OrderModification.RemoveThenUpdate | src/services/orderModificationService.ts:14-21 | modifications apply in order: an update after a remove of the same item finds nothing |
| OrderModification.ModifyOrder | src/services/orderModificationService.ts:5-56 | the loop applies each modification in turn and ends in the state `Modify` specifies |
| OrderConfirmation.Confirm | src/services/orderConfirmationService.ts:7-32 | missing and non-PENDING orders fail with no write; a PENDING order always gets its new status and reason; it succeeds exactly when the audit write does, logging one event, and an audit error is returned with the status written and nothing logged |
| OrderConfirmation.SecondConfirmFails | src/services/orderConfirmationService.ts:14-16 | once decided, a second confirmation fails with "Order cannot be modified" and changes nothing |
| OrderConfirmation.DescriptionsIdentifyOrders | src/services/orderConfirmationService.ts:29 | the audit description `Order <id> <status>` tells orders apart |
| OrderConfirmation.ConfirmOrder | src/services/orderConfirmationService.ts:7-32 | the steps of `confirmOrder` end in the result and tables `Confirm` specifies |
| OrderConfirmation.ConfirmTwice | src/services/orderConfirmationService.ts:14-31 | confirming a PENDING order twice succeeds once, fails once, and logs exactly one event |
| OrderStatus.UpdateStatus | src/services/orderStatusService.ts:5-15 | a missing order fails with "Order not found" and nothing written; otherwise any status is set |
| OrderStatus.StatusOf | src/services/orderStatusService.ts:18-26 | fails with "Order not found" exactly when the order is missing |
| OrderStatus.UpdateThenRead | src/services/orderStatusService.ts:12-25 | reading right after an update gives the new status; other orders read as before |
| OrderStatus.NoTransitionCheck | src/services/orderStatusService.ts:12 | any status may follow any other, with no transition check |
| OrderStatus.UpdateOrderStatus | src/services/orderStatusService.ts:5-15 | the method leaves the result and tables `UpdateStatus` specifies |
| OrderStatus.GetOrderStatus | src/services/orderStatusService.ts:18-26 | returns the stored status, or "Order not found" exactly when the order is missing |
| OrderStatus.SetAndRead | src/services/orderStatusService.ts:5-26 | setting a status and reading it back gives that status; other orders are unchanged |
| OrderLifecycle.PlacedOrderNeedsPending | src/services/punchoutOrderService.ts:83-90 | a just-placed order has null status, so it can be neither confirmed nor modified until its status is set to PENDING |
| PunchoutService.HandlePunchOutSetupRequest | src/services/punchoutService.ts:27-68 | parse and schema errors and unknown parties fail with the prefixed message; success echoes the cookie and the catalog URL |
| PunchoutService.UnknownPartyFails | src/services/punchoutService.ts:47-49 | an unknown buyer or supplier fails with "Invalid buyer or supplier credentials" |
| PunchoutService.CreatePunchOutSetupResponse | src/services/punchoutService.ts:71-84 | the document holds `<URL>` + url + `</URL>` verbatim inside the template |
| PunchoutService.SetupResponseCarriesUrl | src/services/punchoutService.ts:71-84 | the URL element occurs in the document, and the buyer cookie plays no part |
| PunchoutService.HandlePunchOutOrderMessage | src/services/punchoutService.ts:87-112 | length- and order-preserving item projection; no `ItemIn` gives undefined details with success |
| PunchoutService.OrderMessageExample | test/punchoutService.test.ts:36-53 | the test's one item keeps id "item123", quantity and price "100.00"; the quantity passes through in the parser's type (text here, a number in the test) |
| Cxml.Project | src/services/etlService.ts:18-22 | copies ItemID and Quantity; the price is exactly UnitPrice.Money.value, undefined when any part is missing |
| Etl.MapItems | src/services/etlService.ts:18-22 | the output has one element per item |
| Etl.TransformPunchOutOrderMessage | src/services/etlService.ts:15-26 | undefined exactly when OrderMessage or ItemIn is absent; a parse error propagates |
| Etl.MapItemsAt | src/services/etlService.ts:18-22 | the i-th output is the projection of the i-th item |
| Etl.TransformShape | src/services/etlService.ts:18-22 | same length and order, ids and quantities copied, price undefined without UnitPrice or Money |
| Etl.SameAsServiceMapping | src/services/etlService.ts:18-22 | gives exactly the item details of the PunchOut service's order-message handler |
| Text.NatToStringRoundTrip | src/services/orderConfirmationService.ts:29 | the decimal rendering of an order id reads back as the id |

## Left out

- Gateway.HandleError: the status validation of the Fetch `Response` constructor is not modelled. For an `ApiError` whose status is outside 200-599, or is 204, 205 or 304, `new Response` throws, but the model answers with that status. No code in the repository throws such a status (Gateway.RepositoryErrorStatuses).
- Gateway.HandleErrorResponse: likewise, a `statusCode` outside 200-599, or 204, 205 or 304 with its JSON body, makes `new Response` throw; the model returns a response with that status.
- Gateway.ApiGateway.HandleRequest: when `handleError` throws for such a status inside the catch, the source's `handleRequest` rejects instead of answering; the model answers.
- Http.Request: headers are held already lower-cased, as a Fetch `Headers` object stores them; appending a second value to a name (joined with `, `) is not modelled, since the gateway only reads headers.
- The logging calls `logRequest`, `logResponse` and `logError`, console output, and the `console.warn` in `retry`: they write to the console and do not affect results.
- Real waiting in `retry`: the sleeps are recorded as a sequence of delays, not taken.
- Concurrency: the lock and both rate limiters do a check and then a write, with no atomicity. The model runs calls one after another, so it makes no claim about concurrent requests.
- Lock expiry: the code ignores `timeout`, so keys stay held until released.
- The `env` argument of middlewares and handlers: the code never reads it.
- Handler resolution by `constructor.name === 'AsyncFunction'`: JavaScript reflection. The model uses `Ready` and `Loader` handlers. The check as written is modelled separately for the finding below.
- The general regular-expression engine: template text other than `:name` is matched literally, so regex metacharacters in a template are not interpreted.
- `apiKeyAuth` and `roleBasedAccess` are modelled on their own. As written, the gateway would treat the tenant object `apiKeyAuth` returns as a response, and `roleBasedAccess` does not have the middleware signature.
- XML parsing (`parseXml`) and zod validation: their outcome is an input, either an error message or a validated document.
- Floating point: `parseFloat` of amounts. Amounts are kept as the decimal text of the message.
- The currency conversion in the pipeline: its result is discarded, so only whether it throws is modelled.
- Event publishing and the webhook, email, queue and producer/consumer files: only whether the publish throws is modelled.
- Database lookups through `select(...).where(...)` without `.first()` are modelled as lookups that give the row or nothing.
- Ids: order ids are handed out upwards from `nextId`; the store's real id generation is not part of this model.
- The thin services `orderRequestService`, `invoiceDetailService`, `punchoutOrderMapping`, `reportingService`, `authenticationService`, `tenantService`, `tenantUserService`, `currencyService`, the Drizzle schemas and `src/index.ts` are not part of this model. The one schema fact kept is the unique `buyer_cookie` on orders.
- `parseCSV` and `parseXML` in `etlService`: direct calls into Papa and the XML parser.
- The session cache key built in `handlePunchOutSetupRequest` is never used, so it is not modelled.

## Findings

| source | as written | input that shows it | evidently intended | confidence | as-written member | corrected member |
|---|---|---|---|---|---|---|
| src/libs/gateway.ts:130-136 | a route handler whose constructor is `AsyncFunction` is called as a loader, and its result is then called as the handler | the test's `async` handler for `GET /users/:id` and request `/users/123` (test/gateway.test.ts:74-86): the handler returns a `Response`, calling it throws a `TypeError`, and the answer is 500 | handlers registered with `on` are called once and their response returned (200 "User ID: 123"); only `onAsync` routes hold loaders | high (not executed); the greeting test at test/gateway.test.ts:89-110 registers an `async` handler too and is answered with 500 as written; it is replayed only on the corrected router (GatewayExamples.MiddlewareWritesReachHandler) | GatewayExamples.AsyncHandlerAnswersInternalError | Gateway.ApiGateway.HandleRoute |

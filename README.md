# SnapTrade trial: a Dafny model of the server controller, the error layer and the dashboard page

This project models the decision logic of the SnapTrade trial application.

The **Express controller** (`server/src/controllers/snapTradeController.ts`) does three things:

- it connects a user to a broker along one of three paths: refresh an existing authorization, log in with the supplied secret, or register and then log in;
- it answers connection queries;
- it builds the params objects of the trading and transaction calls.

Every SnapTrade SDK call is an oracle. The handler takes the call's outcome as a parameter, `Resolved(data)` or `Rejected`. It returns the trace of SDK calls it made and the response it wrote.

The **error layer** (`server/src/errors/`) has two parts: the five `*Error` factories over the `CustomApiError` record, and the `GlobalErrorHandler` middleware.

The **dashboard page** (`client/app/page.tsx`) is a `Dashboard` class. Its fields are the React state plus a `storage` map that stands in for `localStorage`. Its handlers are methods. A handler works on the values it read when it started, as a React closure does. Each HTTP post's answer is a parameter, `Answered(data)` or `Failed(error)`.

JavaScript values are explicit. `JsVal` has the cases `Undefined`, `Null`, `Bool`, `Num` (integers), `Str` and `Obj`, where `Obj` is an opaque reference.

- Dafny's `==` on `JsVal` is JavaScript's `===`.
- `Truthy` models `!x`.
- `Or` models `x || d`.

The difference between falsy checks and `!== undefined` checks shows up in the contracts. For example, `limit: 0` becomes 1000, while `price: 0` is sent as it is.

Where the code and the intent part ways, the model follows the code. Three cases:

- `err instanceof BadRequestError` tests an arrow function, which has no `prototype`. A native arrow makes the test throw inside the catch block, so the handler's promise rejects; under Express 4, which ignores a rejected handler promise, nothing is sent (`Unanswered`). An arrow down-levelled to a `function` makes the test false, and the handler answers 500. The `InstanceofCheck` parameter picks which. No validation failure ever produces a 400.
- `connectSnaptradeBroker` and the two connection queries catch their own `BadRequestError`, so a validation failure there is a plain 500.
- `handleCredentialsSubmit` stores the trimmed credentials but leaves the state fields untrimmed. The effect at `page.tsx:72-76` then fetches connections with the untrimmed values.

Files, one module each:

- `js_values.dfy` (`JsValues`)
- `js_strings.dfy` (`JsStrings`): `toLowerCase`, `toUpperCase` and `trim`
- `snaptrade_api.dfy` (`SnapTradeApi`): the SDK records, calls, responses and the shared catch block
- `connections.dfy` (`Connections`)
- `trading.dfy` (`Trading`)
- `account_data.dfy` (`AccountData`)
- `api_errors.dfy` (`ApiErrors`)
- `error_handler.dfy` (`ErrorHandler`)
- `home_page.dfy` (`HomePage`)

## Model

| member | source | states |
|---|---|---|
| JsStrings.ToLowerCase | server/src/controllers/snapTradeController.ts:21 | the result has the same length as the input; each upper-case ASCII letter becomes its lower-case letter (code point plus 32), every other character is unchanged, and no upper-case letter is left |
| JsStrings.ToUpperCase | client/app/page.tsx:93 | the result has the same length as the input; each lower-case ASCII letter becomes its capital (code point minus 32), every other character is unchanged, and no lower-case letter is left |
| JsStrings.LowerOfUpper | client/app/page.tsx:93 | lower-casing an upper-cased string gives the same result as lower-casing the original |
| JsStrings.Trim | client/app/page.tsx:119 | the result is empty iff the input is all whitespace; a non-empty result is the input without its whitespace prefix and its whitespace suffix, and it starts and ends with non-whitespace |
| JsStrings.TrimIdempotent | client/app/page.tsx:119-124 | trimming twice gives the same result as trimming once |
| SnapTradeApi.CatchReply | server/src/controllers/snapTradeController.ts:195-204 | the catch blocks give no response when `instanceof` throws, and otherwise a 500 with the handler's own message; never a 400 |
| Connections.FirstExisting | server/src/controllers/snapTradeController.ts:20-22 | the index `find` stops at: a matching entry with no match before it; None iff no entry matches |
| Connections.FindExisting | server/src/controllers/snapTradeController.ts:20-22 | a TypeError iff the list is non-empty and the broker is not a string; otherwise the first entry whose slug matches in lower case and that is not disabled, or no entry matches |
| Connections.ExistingId | server/src/controllers/snapTradeController.ts:23 | an id is refreshed iff the first match exists and its id is truthy, and the id given is that entry's id |
| Connections.UpperCasedBrokerFindsSame | server/src/controllers/snapTradeController.ts:21 | the broker as the client sends it (upper-cased) finds the same authorization as the broker as typed |
| Connections.ConnectSnaptradeBroker | server/src/controllers/snapTradeController.ts:8-88 | a validation failure makes no SDK call and gives 500 "An error occurred while connecting to the broker"; with a secret the listing comes first and there is never a register call; a match with a truthy id gives exactly one refresh of that id and a 200 that echoes the id, the secret and the broker, whatever the refresh outcome; no match means a login with the supplied secret, and a login failure is 500 "Failed to refresh existing connection"; with no secret the calls are register then login, both with the issued secret, and the 200 returns that secret; the status is always 200 or 500 |
| Connections.HasActiveConnection | server/src/controllers/snapTradeController.ts:104-106 | true iff some authorization is for the brokerage and is not disabled |
| Connections.ConnectionsFor | server/src/controllers/snapTradeController.ts:108-110 | the kept entries are exactly the listed ones for the brokerage, disabled entries included, and there are no more of them than in the list |
| Connections.ConnectionsForAppend | server/src/controllers/snapTradeController.ts:108-110 | the filter keeps listing order: filtering a concatenation concatenates the filtered parts |
| Connections.ActiveConnectionIsListed | server/src/controllers/snapTradeController.ts:104-115 | when `hasActiveConnection` is true, the returned `connections` list is non-empty |
| Connections.CheckBrokerConnection | server/src/controllers/snapTradeController.ts:91-120 | a validation failure makes no SDK call and gives 500; otherwise exactly one listing call; a failed listing gives 500, and a successful one gives 200 with `hasActiveConnection` and the filtered list |
| Connections.CheckGuard | server/src/controllers/snapTradeController.ts:95-97 | the request passes validation iff `userId`, `userSecret` and `brokerId` are all truthy |
| Connections.RefreshCallsExactly | server/src/controllers/snapTradeController.ts:137-148 | a refresh is made for an id iff some entry that is not disabled and has a truthy id carries that id; a refresh carries the handler's credentials |
| Connections.RefreshCallsAppend | server/src/controllers/snapTradeController.ts:136-156 | refreshes follow listing order: the refreshes of a concatenation are those of each part in turn |
| Connections.RefreshCalls | server/src/controllers/snapTradeController.ts:137-148 | at most one refresh per listed entry, and an entry that is disabled or has no truthy id adds none |
| Connections.Summary | server/src/controllers/snapTradeController.ts:149-154 | id and disabled as listed; brokerage name and logo read through `conn.brokerage?.`, so undefined when there is no brokerage |
| Connections.ListingGuard | server/src/controllers/snapTradeController.ts:127-129 | the request passes validation iff `userId` and `userSecret` are both truthy |
| Connections.GetAllConnections | server/src/controllers/snapTradeController.ts:123-165 | a validation failure makes no SDK call and gives 500; otherwise one listing call, then the refreshes of exactly the eligible entries; the 200 list has the listing's length and order, each entry mapping id, brokerage name, logo and disabled, whatever the refresh outcomes |
| Trading.CopyDefinedOptionals | server/src/controllers/snapTradeController.ts:395-398 | each of price, stop, units and notional_value is present iff it is not undefined in the body, and then with the body's value (0 and null included); fields already there are kept |
| Trading.ImpactParams | server/src/controllers/snapTradeController.ts:386-398 | the params carry the seven required fields with the body's values and the defined optional ones, and nothing else |
| Trading.ImpactGuard | server/src/controllers/snapTradeController.ts:371-383 | the request passes validation iff all seven required fields are truthy |
| Trading.CheckOrderImpact | server/src/controllers/snapTradeController.ts:355-413 | a validation failure makes no SDK call; otherwise exactly one impact call with those params; the reply is 200 "Order impact fetched successfully" with the data, or the catch block's |
| Trading.PlaceCheckedOrder | server/src/controllers/snapTradeController.ts:415-442 | a validation failure makes no SDK call; otherwise one place call with the credentials and tradeId; `wait_to_confirm` is true only when undefined, and any other value (false too) is sent as given |
| Trading.CheckedOrderGuard | server/src/controllers/snapTradeController.ts:419-421 | the request passes validation iff `userId`, `userSecret` and `tradeId` are all truthy |
| Trading.CancelOrder | server/src/controllers/snapTradeController.ts:444-473 | a validation failure makes no SDK call; otherwise exactly one cancel call with the four fields; the reply is 200 "Order cancellation attempted" with the data, or the catch block's |
| Trading.CancelGuard | server/src/controllers/snapTradeController.ts:448-452 | the request passes validation iff the credentials, `accountId` and `brokerage_order_id` are all truthy |
| Trading.ForceOrderGuard | server/src/controllers/snapTradeController.ts:492-503 | the request passes validation iff the six account and order fields are truthy and at least one of `universal_symbol_id` and `symbol` is |
| Trading.AccountFields | server/src/controllers/snapTradeController.ts:506-513 | the params start with the six account and order fields as the body has them, and no instrument or optional field |
| Trading.SetInstrument | server/src/controllers/snapTradeController.ts:515-521 | a truthy `universal_symbol_id` is set with `symbol` null, and otherwise `symbol` is set with `universal_symbol_id` null; every other field is kept and no other field is added |
| Trading.ForceOrderParams | server/src/controllers/snapTradeController.ts:506-526 | the params carry the six required fields and the defined optional fields; a truthy `universal_symbol_id` is sent with `symbol` null, and otherwise `symbol` is sent with `universal_symbol_id` null |
| Trading.PlaceForceOrder | server/src/controllers/snapTradeController.ts:475-542 | it refuses, making no SDK call, when a required field is falsy or when both `universal_symbol_id` and `symbol` are falsy; otherwise one force-order call with those params |
| Trading.OneInstrumentSent | server/src/controllers/snapTradeController.ts:515-521 | of the two instrument fields sent, exactly one is null and the other is truthy |
| AccountData.GetAllAccounts | server/src/controllers/snapTradeController.ts:169-205 | a validation failure makes no SDK call; otherwise one listing call; the 200 list has one entry per listed account, in order, with balance total and meta type undefined when missing, and a missing list is [] |
| AccountData.AccountsGuard | server/src/controllers/snapTradeController.ts:173-175 | the request passes validation iff `userId` and `userSecret` are both truthy |
| AccountData.SummarizeAccount | server/src/controllers/snapTradeController.ts:182-190 | each account entry keeps id, name, number, institution name and status, and reads the balance total and the type through `?.`, undefined when the record is missing |
| AccountData.ActivitiesQueryOf | server/src/controllers/snapTradeController.ts:281-290 | a falsy start date, end date or type is sent as undefined; a falsy offset becomes 0 and a falsy limit becomes 1000; truthy values are sent as given |
| AccountData.QueryHasNoStrayFalsyValue | server/src/controllers/snapTradeController.ts:281-290 | whatever the body holds, the limit sent is truthy, and the only falsy values sent are undefined dates or type and an offset of 0 |
| AccountData.GetTransactionHistory | server/src/controllers/snapTradeController.ts:273-321 | a validation failure makes no SDK call; otherwise exactly one activities call with that query; the 200 reply maps each activity in order and passes the pagination through |
| AccountData.TransactionsGuard | server/src/controllers/snapTradeController.ts:277-279 | the request passes validation iff `userId`, `userSecret` and `accountId` are all truthy |
| AccountData.SummarizeActivity | server/src/controllers/snapTradeController.ts:292-306 | each transaction entry keeps the activity's fields, `type` included, and reads the symbol and the currency code through `?.`, undefined when the record is missing |
| ApiErrors.NotFoundError | server/src/errors/index.ts:3 | status 404; a non-empty message is kept, and a missing or empty one becomes "Not Found" |
| ApiErrors.BadRequestError | server/src/errors/index.ts:4 | status 400; a non-empty message is kept, and a missing or empty one becomes "Bad Request" |
| ApiErrors.UnauthorizedError | server/src/errors/index.ts:5 | status 401; a non-empty message is kept, and a missing or empty one becomes "Unauthorized" |
| ApiErrors.ForbiddenError | server/src/errors/index.ts:6 | status 403; a non-empty message is kept, and a missing or empty one becomes "Forbidden" |
| ApiErrors.InternalServerError | server/src/errors/index.ts:7 | status 500; a non-empty message is kept, and a missing or empty one becomes "Internal Server Error" |
| ApiErrors.StatusesAreStandardAndDistinct | server/src/errors/index.ts:3-7 | every constructed error's status is in {400, 401, 403, 404, 500}, and two errors with the same status are of the same kind |
| ApiErrors.MessageNeverEmpty | server/src/errors/index.ts:3-7 | every factory error has a non-empty message: the one given when it is non-empty, and otherwise that factory's fixed text |
| ErrorHandler.GlobalErrorHandler | server/src/errors/GlobalErrorHandler.ts:5-24 | one response; its status is the error's own status code or 500; a `CustomApiError` with a writable status goes out as is; anything else, or a failing first write, gives 500 with the `InternalServerError()` body |
| ErrorHandler.FactoryErrorsPassThrough | server/src/errors/GlobalErrorHandler.ts:12-16 | an error from any of the five factories is answered with its own status and itself as the body |
| ErrorHandler.OtherErrorsDoNotLeak | server/src/errors/GlobalErrorHandler.ts:19-22 | any two non-API errors give the same generic 500, whether or not the first write fails: nothing of the raw error is sent |
| HomePage.GetErrorMessage | client/app/page.tsx:14-27 | a truthy server error text comes first, then a string message, then "Unknown error occurred"; the result is a string unless the server sent a non-string error |
| HomePage.StoredCredentials | client/app/page.tsx:42-44 | credentials are adopted iff both stored values are present and non-empty, and they are the stored pair |
| HomePage.SubmittedCredentialsReload | client/app/page.tsx:123-124 | after a submit that passes validation, the next mount-time load adopts the trimmed credentials |
| HomePage.RotatedSecret | client/app/page.tsx:97-100 | the secret changes iff the returned secret is present, non-empty and different, and then it becomes the returned one |
| HomePage.RefetchSecret | client/app/page.tsx:109 | the refetch uses the returned secret when it is present and non-empty, and the current one otherwise |
| HomePage.RefetchUsesRotatedSecret | client/app/page.tsx:97-109 | the refetch secret (the returned one when non-empty, else the current one) equals the secret the rotation leaves in place |
| HomePage.RedirectOf | client/app/page.tsx:101-103 | the page redirects iff the answer carries a connection status with a non-empty `redirectURI`, and the target is that URI |
| HomePage.Dashboard.constructor | client/app/page.tsx:30-38 | the initial state: empty fields, no connections, no flags set, the browser's storage |
| HomePage.Dashboard.LoadStoredCredentials | client/app/page.tsx:41-49 | it adopts both stored credentials and sets `submitted` when both are present and non-empty, and changes nothing otherwise; storage is unchanged |
| HomePage.Dashboard.FetchConnections | client/app/page.tsx:51-70 | one request with the given credentials; an answer sets the list (or [] when absent) and clears the error; a failure clears the list and shows `GetErrorMessage`; loading ends false and no other field changes |
| HomePage.Dashboard.SyncConnections | client/app/page.tsx:72-76 | it fetches with the current credentials iff they were submitted and both are non-empty, and then as `FetchConnections` does (list or [] with the error cleared, or [] with `GetErrorMessage`, loading false); otherwise it leaves the connection fields alone |
| HomePage.Dashboard.HandleConnectBroker | client/app/page.tsx:78-115 | an empty userId or broker sets "User ID and Broker are required" and sends nothing; otherwise it sends the upper-cased broker with the current secret; the secret in state and storage rotates by the rule; a failure shows `GetErrorMessage`, and a redirect sends nothing more, both leaving the connection fields as they were; otherwise it refetches with the rotated secret, which sets the list (clearing the error) or [] with `GetErrorMessage`, and loading ends false; connect loading ends false |
| HomePage.Dashboard.HandleCredentialsSubmit | client/app/page.tsx:117-126 | it alerts iff either field trims to empty, and then stores nothing; otherwise it stores both trimmed values, sets `submitted`, and keeps the typed fields as they are |

## Left out

- The SnapTrade SDK (`server/src/lib/snapTradeClient.ts`) is not part of this model. Each call is an oracle outcome, and the data it returns is opaque (`JsVal`) or a record with only the fields the controller reads.
- `getAccountHoldings` is left out. Its units and market values are floating-point sums and products.
- `searchAccountSymbols` and the analysis microservice are left out. Neither is part of the modelled core.
- Express wiring is left out: routes, `server/src/index.ts`, the not-found handler and `ApiResponse`.
- Console logging is left out.
- JSX rendering is left out.
- The `window.location` assignment is left out. `HandleConnectBroker` returns the redirect target instead.
- `client/app/broker/[connectionId]/page.tsx` is not part of this model.
- The `err instanceof BadRequestError` 400 branches are left out. The test never matches a factory-built error, so the model states no 400 outcome. It only states that a validation failure makes no SDK call.
- JSON serialisation is not modelled. For example, undefined fields are dropped from a response body, and a value `undefined` inside a params object is not distinguished from an absent key.
- JavaScript numbers are integers here: no NaN, no fractions.
- `JsStrings.ToLowerCase` and `JsStrings.ToUpperCase` map ASCII letters only. Other characters are left unchanged, whereas JavaScript applies full Unicode case mapping.
- `Connections.GetAllConnections` takes `Promise.all` as a sequential pass. The refresh calls are traced in listing order, not in any real interleaving.
- `ErrorHandler.GlobalErrorHandler` assumes the write in the catch block succeeds. A status outside 100..999 and the `writeFails` parameter are the only ways the first write fails.
- `HomePage.Dashboard.HandleConnectBroker` applies the unawaited connection refetch in full before returning. The refetch touches only the connection fields, which the rest of the handler does not write, so the final state is the same.
- `HomePage.GetErrorMessage` sees an error object only through `e.response?.data?.error` and `e.message`. A thrown TypeError from a malformed answer body is not modelled.
- `HomePage.Dashboard.SyncConnections` is invoked explicitly. When React re-runs the effect is not modelled.
- `SnapTradeApi.CatchReply`: `Unanswered` assumes Express 4, which ignores the rejected handler promise; the source fixes no Express version. Under Express 5 the rejection reaches `GlobalErrorHandler` and is answered 500 with the `InternalServerError()` body (what `ErrorHandler.OtherErrorsDoNotLeak` states for any non-API error). On Node 15 or later an unhandled rejection also ends the process by default. Neither is modelled.
- `Connections.UpperCasedBrokerFindsSame` holds for the ASCII case mapping of the model. Under JavaScript's full Unicode mapping it can fail: `"ß".toUpperCase()` is `"SS"`, so an upper-cased broker with such a character lower-cases to a different slug.
- `Trading.CancelGuard` checks truthiness only, as the code does. A whitespace-only order id such as `"  "` is accepted.

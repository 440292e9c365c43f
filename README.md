# salestax-api in Dafny

A model of the core of salestax-api, a small HTTP service. The service takes a
street, city, ZIP code and country and forwards them to a tax-rate calculator
upstream. It checks a test or production API key first. Afterwards it logs,
per month, every query whose upstream body parses as JSON, and bills those
made with the production key. Billed calls also post a Slack notification.
A password-protected admin page shows dashboards built from the logs.

The model covers:

- **API keys** (`api_key.dfy`). A key is classified as test, prod or invalid
  against the two configured secrets. `RequireApiKey` turns an invalid key into
  the "Unauthorized" error.
- **CORS** (`cors.dfy`). The three CORS headers are added to a header map,
  once as a function (`WithCors`) and once as the loop the source runs
  (`AddCorsHeaders`).
- **Month keys** (`month_keys.dfy`, `strings.dfy`). `YYYY-MM` keys are built
  from the clock's year and month index. The model proves that they parse back,
  are injective and sort chronologically as strings.
- **The cost ledger** (`cost_tracker.dfy`) and **the query log**
  (`query_logger.dfy`). Each is a class over a directory of month files.
  - Loading falls back to an empty month when a file is missing or corrupt.
  - `TrackCost` and `LogQuery` rewrite only the current month's file.
  - `GetAllCosts` and `GetAllLogs` read every file, in an order left open, and
    sort the records newest first when every file parses. A corrupt file ends
    the read, and the records read so far are returned unsorted. This uses
    one stable in-place insertion sort (`sorting.dfy`) and one file-reading
    loop (`month_files.dfy`).
- **Slack** (`slack.dfy`). The model builds the query-detail lines, the
  formatted query, the three-block message and the no-webhook exit.
- **The tax route** (`tax_route.dfy`). `handleTaxRequest` runs these steps:
  1. validate the key;
  2. normalise the parameters and forward them;
  3. log the query for either tier;
  4. for prod only, track the cost, then notify with the updated totals;
  5. echo the upstream answer.

  Every error becomes a JSON error response: 401 when the message mentions
  "Unauthorized", 500 otherwise. The method also returns the trace of its side
  effects in order.
- **The router** (`server.dfy`). It picks a route by method, path and the
  presence of `x-api-key`, in a fixed priority order, and builds the responses
  it answers itself.
- **The admin page** (`admin.dfy`). It covers:
  - the password check and the outcome of a login;
  - the `admin_session` cookie gate;
  - the dashboard aggregates: total, prod and test query counts, rows per
    month, total cost, and the 50 most recent queries newest first.

Costs are integers in minor units (paise). `toFixed(2)` is modelled exactly
on them (`Strings.Fixed2`). String comparison (`localeCompare`) is code-point
lexicographic order (`Strings.LexLe`). The environment becomes parameters of
the operations:

- the clock readings (`Instant`);
- the secrets and settings (`Secrets`, `Config`);
- the outcome of each file write (`SaveOutcome`);
- the upstream answer (`Upstream`);
- the Slack timestamp and the admin session token.

Every prod call whose upstream body parses as JSON is billed and notified,
whatever its status (`TaxRoute.AnswerParsed`). A failed upstream call or a
body that does not parse is not logged, because the error is raised before
`logQuery` runs (`TaxRoute.ServeValid`). Logs and costs live in JSON files,
one per month; the Redis helper is not called by the core.

## Model

| member | source | states |
|---|---|---|
| ApiKey.ValidateApiKey | src/services/api-key.ts:10-27 | valid exactly when the type is test or prod; a missing or empty key is invalid; test exactly when the key equals a set, non-empty test secret; prod exactly when it equals a set, non-empty prod secret and is not the test secret (test is checked first) |
| ApiKey.RequireApiKey | src/services/api-key.ts:29-35 | succeeds exactly when the key validates, returning the validation; otherwise fails with "Unauthorized: Invalid or missing API key", which contains "Unauthorized" |
| ApiKey.UnauthorizedMessageSaysSo | src/services/api-key.ts:32 | the thrown message contains "Unauthorized", so the tax route maps it to 401 |
| Cors.CorsEntriesMap | src/utils/cors.ts:1-6 | the three CORS entries form a map from exactly the three header names to their values |
| Cors.WithCors | src/utils/cors.ts:8-14 | each CORS header holds its fixed value, every other header is kept unchanged, and the names are the input's plus the three CORS names |
| Cors.WithCorsIdempotent | src/utils/cors.ts:8-14 | adding the CORS headers twice is the same as adding them once |
| Cors.AddCorsHeaders | src/utils/cors.ts:8-14 | the loop that sets each CORS entry in turn yields `WithCors` of its input |
| MonthKeys.MonthKey | src/services/cost-tracker.ts:18-23 | the key ends in `-MM` with MM one of 01..12 (month index plus one, padded to two digits) |
| MonthKeys.MonthKeyRoundTrip | src/services/cost-tracker.ts:18-23 | parsing a month key gives back its year and month index |
| MonthKeys.MonthKeyInjective | src/services/cost-tracker.ts:18-23 | two instants share a month file exactly when they share year and month |
| MonthKeys.FourDigitYear | src/services/cost-tracker.ts:20 | years 1000..9999 print as four digits |
| MonthKeys.MonthKeyChronological | src/services/cost-tracker.ts:18-23 | for four-digit years, comparing keys as strings agrees with comparing (year, month) chronologically, so sorting by key sorts by date |
| Strings.Pad2 | src/services/cost-tracker.ts:21 | `padStart(2, "0")` on a number below 100 gives exactly two digit characters |
| Strings.Fixed2RoundTrip | src/services/slack.ts:34 | the two-decimal rendering of an amount parses back to the same amount, so no two amounts print alike |
| CostTracker.ChargedConsistent | src/services/cost-tracker.ts:87-89 | one billed call keeps `totalInvocations` equal to the number of entries and `totalCost` equal to their sum |
| CostTracker.ConstantPriceTotals | src/services/cost-tracker.ts:68-98 | a month that starts empty and is billed n times at one price holds exactly those n entries, `totalInvocations == n` and `totalCost == n * price` |
| CostTracker.CostStore.LoadMonthlyCost | src/services/cost-tracker.ts:29-54 | the stored record when the file exists and parses; otherwise the empty record for that month |
| CostTracker.CostStore.TrackCost | src/services/cost-tracker.ts:68-98 | on a successful write only the current month's file changes, to the loaded record with one entry appended, one more invocation and the price added to the total, and the returned stats are those totals; on a failed write nothing changes and the error is returned |
| CostTracker.CostStore.GetMonthlyStats | src/services/cost-tracker.ts:100-103 | the current month's record as loaded, named after the current month |
| CostTracker.CostStore.GetAllCosts | src/services/cost-tracker.ts:105-130 | empty without the directory; every record returned is a stored file's content; when every file parses, all of them are returned, newest month first |
| MonthFiles.ReadMonthFiles | src/services/cost-tracker.ts:112-120 | reads files in any order and stops at the first corrupt one; every record read is the content of its month's file; complete exactly when every file parses, and then every file was read once |
| Sorting.SortDescending | src/services/cost-tracker.ts:122-123 | the array ends sorted by key, largest first, and is a permutation of what it was; the returned index map is one to one and onto, and elements with equal keys keep their input order (the sort is stable) |
| Sorting.SortedCopy | src/routes/admin.ts:247 | the copy holds the same elements as the input, sorted by key, largest first, and stably |
| Sorting.StableCut | src/routes/admin.ts:247-248 | cutting a stably sorted list after `n`: the kept elements come from distinct input positions, equal keys keep input order, and an input element left out sorts no higher than any kept one and, on a tie, came later in the input |
| QueryLogger.QueryLogStore.LoadMonthlyLog | src/services/query-logger.ts:29-50 | the stored record when the file exists and parses; otherwise the empty log for that month |
| QueryLogger.QueryLogStore.LogQuery | src/services/query-logger.ts:64-88 | on a successful write only the current month's file changes, to the loaded log with exactly one entry appended; a failed write is swallowed and changes nothing |
| QueryLogger.QueryLogStore.GetAllLogs | src/services/query-logger.ts:90-115 | empty without the directory; every log returned is a stored file's content; when every file parses, all of them are returned, newest month first |
| Slack.DetailsOfSound | src/services/slack.ts:17-21 | every detail line comes from a non-empty field and carries that field's value |
| Slack.DetailsOfComplete | src/services/slack.ts:17-21 | every non-empty field gets its detail line |
| Slack.DetailsOfOrdered | src/services/slack.ts:17-21 | detail lines follow the order country, ZIP, city, street |
| Slack.QueryDetails | src/services/slack.ts:16-21 | one line per non-empty field and none for empty ones, with the field's value, in the order country, ZIP, city, street |
| Slack.FormattedQuery | src/services/slack.ts:23-25 | the text is "No query parameters provided" exactly when all four fields are empty; otherwise it is the detail lines joined by newlines |
| Slack.Numbered | src/services/slack.ts:34-40 | a text of fixed head, number, fixed middle and tail opens with head, number and middle and ends with the tail |
| Slack.SummaryText | src/services/slack.ts:34 | the summary opens with `Tax API Invocation #n - Total Cost: ₹` and ends with the total |
| Slack.SummaryReadsBack | src/services/slack.ts:34 | two summaries that read the same report the same invocation number and the same total |
| Slack.HeaderText | src/services/slack.ts:40 | the first block opens with the bold heading for invocation `#n`, closed by `*`, then the query-details heading, and ends with the formatted query |
| Slack.FieldText | src/services/slack.ts:48-52 | a field starts with its title and a line break, and what follows is exactly the value |
| Slack.BuildMessage | src/services/slack.ts:33-64 | the text opens with `#n - Total Cost: ₹` and ends with the total to two decimals; three blocks in order: the heading for `#n` ending with the query details, the two titled fields holding exactly `#n` and `₹` with the total, and a last block `🕐 … IST` holding the timestamp |
| Slack.MessageReadsBack | src/services/slack.ts:34 | two messages with the same text carry the same invocation number and the same monthly total |
| Slack.SendSlackNotification | src/services/slack.ts:4-82 | nothing is posted exactly when the webhook URL is unset or empty; otherwise the built message is posted to that URL |
| TaxRoute.Param | src/routes/tax.ts:22-25 | a missing or empty parameter reads as "", any other as itself |
| TaxRoute.ErrorResponse | src/routes/tax.ts:76-93 | status 401 when the message contains "Unauthorized" and 500 otherwise, JSON body `{error: message}`, JSON and CORS headers |
| TaxRoute.BillProd | src/routes/tax.ts:55-63 | tracks the cost; on success, notifies with the totals the tracker returned; on a failed write, reports the failure and sends nothing |
| TaxRoute.AnswerParsed | src/routes/tax.ts:49-75 | one log entry for either tier; a test call is not billed and echoes the upstream status and body; a prod call is billed whatever the upstream status, then notified, then echoed, or gets the error response (its status, `{error}` body, JSON and CORS headers) when the cost write fails |
| TaxRoute.ServeValid | src/routes/tax.ts:21-93 | the query is forwarded first; a failed upstream call or unparsable body gives the error response for its message (status, `{error}` body, JSON and CORS headers) with nothing logged or billed; otherwise as `AnswerParsed`; billing happens exactly for prod keys with a parsed body |
| TaxRoute.HandleTaxRequest | src/routes/tax.ts:10-94 | an invalid or missing key gives 401 with the Unauthorized `{error}` body and JSON and CORS headers, and changes nothing; a valid one is served for its tier with the normalised query |
| Server.ApiDocsNamesTheApi | src/server.ts:8 | the usage guide names "Tax Calculator API" |
| Server.SelectRoute | src/server.ts:39-104 | OPTIONS is preflight on every path; then /health, /admin or /admin/, /docs, /docs/openapi.json each select their route; the root serves the guide exactly when the key is missing or empty and tax calculation otherwise; every other path is 404 |
| Server.RouteIgnoresMethod | src/server.ts:39-104 | two methods other than OPTIONS always select the same route |
| Server.HandleRequest | src/server.ts:39-104 | preflight answers 200 "ok" with CORS headers; health answers 200 JSON with status "ok"; the guide answers 200 plain text naming the API; unknown paths answer 404 `{error: "Not found"}`; only the tax route reaches the tax handler, and the admin and docs routes reach theirs |
| Admin.CheckPassword | src/routes/admin.ts:5-8 | true exactly when the test key is set and the password equals it; an absent password never matches |
| Admin.FormPassword | src/routes/admin.ts:123 | a missing or empty password field reads as no password |
| Admin.EmptyPasswordRejected | src/routes/admin.ts:123-125 | an empty or missing password never logs in, even when the test key is configured as "" |
| Admin.SessionCookie | src/routes/admin.ts:196 | the login cookie contains `admin_session=` |
| Admin.SessionCookieOpensGate | src/routes/admin.ts:206-207 | sending back the login cookie passes the session check |
| Admin.TierCountSplit | src/routes/admin.ts:220-227 | within a month, prod plus test entries are at most all entries, with equality exactly when every entry is of tier test or prod |
| Admin.TierCountLogged | src/services/query-logger.ts:82 | logging one entry adds one to its own tier's count and nothing to any other's |
| Admin.TierQueriesSplit | src/routes/admin.ts:218-227 | over all months, `prodQueries + testQueries <= totalQueries`, with equality exactly when every entry is of tier test or prod |
| Admin.MonthlyQueryData | src/routes/admin.ts:230-235 | one row per month in order, with that month's key, entry count and per-tier counts, prod plus test at most the total |
| Admin.AllQueriesCount | src/routes/admin.ts:244-246 | the flattened list has `totalQueries` entries |
| Admin.AllQueriesSound | src/routes/admin.ts:244-246 | every flattened entry is an entry of some month's log, tagged with that month |
| Admin.AllQueriesComplete | src/routes/admin.ts:244-246 | every entry of every month is in the flattened list, tagged with its month |
| Admin.SortedPrefixNewest | src/routes/admin.ts:247-248 | a prefix of a newest-first list is newest first and holds its newest entries |
| Admin.RecentQueries | src/routes/admin.ts:247-248 | the result has min(50, all) entries, newest first, drawn from the input, and nothing left out is newer than anything kept; entries with the same timestamp stay in their `allQueries` order, and at the cut the earlier of them are kept |
| Admin.TotalCostOfCalls | src/routes/admin.ts:219 | when every month's counters agree with its entries, the total cost is the cost of every billed call recorded |
| Admin.MonthlyCostData | src/routes/admin.ts:237-241 | one row per month, in order, with the month's key, total cost and invocation count; for a consistent month these are the number and the summed cost of its calls |
| Admin.BuildDashboard | src/routes/admin.ts:218-248 | the totals, tier counts, month rows and cost rows are those of the months read; the recent list is the newest min(50, total) entries, ties kept in `allQueries` order and settled at the cut by that order; the numbers are coherent |
| Admin.HandleAdminUI | src/routes/admin.ts:118-606 | a POST whose body is not a form gets the login page; a wrong password gets 401; the right one gets 302 to /admin with the session cookie and no CORS headers; other requests without `admin_session=` get the login page; with it, a coherent dashboard; the dashboard appears only behind the cookie |

## Left out

- Files, the network, the clock and the environment are not modelled as I/O. Each is a parameter of the operations: clock readings, secrets and settings, write outcomes, the upstream answer, the Slack timestamp and the session token.
- The upstream fetch, the webhook POST and their failures are not performed. The notification is returned as the post it would make; a failed or non-ok post is logged and swallowed in the source, so it changes nothing.
- Concurrency: two requests interleaving a load and a save of the same month file can lose an entry. The model runs one request at a time.
- Floating point: costs are integer minor units, so `parseFloat` of the configured price, NaN and rounding in sums are not modelled. A zero or negative price is used as given, as in the source.
- The HTML, CSS and chart templates of the admin page are not modelled, nor is the documentation route. `src/routes/docs.ts` is not part of this model.
- Server.HandleRequest: the usage guide is modelled by its title line only; the rest is static text.
- Admin.HandleAdminUI: the dashboard is stated by the facts that always hold for its numbers (`Coherent`). The link to the exact months read goes through `BuildDashboard`, because the months are read in an order the model leaves open.
- The session token's content (base64 of the login time) is a parameter. Only the presence of `admin_session=` in the Cookie header is checked, as in the source.
- Header names are written lower-case, as the Headers API stores them. Header order and multi-valued headers are not modelled.
- Errors thrown that are not `Error` instances (message "Internal server error") are not modelled: every failure in the model carries a message.
- The directory is created on every save (`ensureDirectories`). In the model a successful save marks it present; a failed save leaves the store unchanged.
- Each operation reads the clock once. The source reads it separately for the month key and the entry timestamp, which can straddle a month boundary.
- `localeCompare` is modelled as code-point order. For the ASCII month keys and ISO timestamps these strings hold, the two agree.
- A JSON body is a `Json` value. JSON text, its parsing and `JSON.stringify` are left out; a parse failure is an `Upstream` outcome carrying its message.
- `src/utils/redis.ts` is not part of this model; nothing in the core calls it.

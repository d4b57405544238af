# Restaurant order dashboard: a verified model of its client logic

This project models the logic of a React dashboard for restaurant order
statistics. It covers:

- the foods page's derived view: a case-insensitive search over name or
  category, then a stable numeric sort on quantity or revenue;
- the state of the foods, dashboard and analysis pages, and how fetch
  results, fallbacks and live-update messages change it;
- the query built from a filter object, and the spreadsheet export;
- the live-update subscription, which reconnects 5000 ms after an error;
- the translation lookup and the language preference;
- the suffix choice of the statistics cards.

Modules follow the source files:

| module | file | source |
|---|---|---|
| `Wrappers` | wrappers.dfy | optional values and request outcomes |
| `Text` | text.dfy | `toLowerCase` (ASCII) and `includes` |
| `Entities` | entities.dfy | the records the server sends |
| `MockData` | mock_data.dfy | src/utils/mockData.js (fallback constants) |
| `FoodView` | food_view.dfy | src/pages/Foods.jsx, `filteredAndSortedFoods` and the summary |
| `FoodsPage` | foods_page.dfy | src/pages/Foods.jsx, page state |
| `Api` | api.dfy | src/services/api.js, requests, query building, export |
| `Channel` | channel.dfy | src/services/api.js, `subscribeToEvents` |
| `Dashboard` | dashboard.dfy | src/pages/Dashboard.jsx |
| `Analysis` | analysis.dfy | src/pages/Analysis.jsx |
| `Language` | language.dfy | src/contexts/LanguageContext.jsx |
| `StatCard` | stat_card.dfy | src/components/StatCard.jsx |

Pure code is written as functions, with lemmas about them. State that the
pages update is written as classes. Their methods list what they may change
in `modifies` and state the new state in `ensures`. Each asynchronous step
is one method call: a fetch start, a fetch completion, a message, a timer
firing, a button press. The caller supplies each response as a `Fetched`
value: the request failed, or it resolved with a body that may be
`null`/`undefined`.

The sort is specified by `SortSpec`, an insertion sort written as a
function. `SortInPlace` sorts a fresh array in place, and its postcondition
ties the result to `SortSpec`. Lemmas prove that `SortSpec` returns a
permutation of its input, ordered by `field || 0`, with equal keys in input
order. `SortedUnique` proves that these properties fix the output
completely. So the model gives the same order as any stable sort, such as
the `Array.prototype.sort` that ECMAScript 2019 and later require.

Two behaviours worth knowing:

- Unsubscribing does not cancel a pending reconnect (see Findings).
- The dashboard falls back only when a response is missing or the request
  failed. An empty list is stored as it is, the heatmap keeps a `null`, and
  the period refetch stores whatever body it gets, `null` included. So not
  every slot is guaranteed to hold a non-null value.

## Model

| member | source | states |
|---|---|---|
| `Text.Lower` | src/pages/Foods.jsx:82-83 | lower-casing keeps the length, leaves no capital letter, turns each capital into its small letter and keeps every other character |
| `FoodView.Select` | src/pages/Foods.jsx:80-84 | keeps exactly the rows whose lower-cased name or present category contains the lower-cased term, each as many times as in the input; never grows the list |
| `FoodView.SelectAppend` | src/pages/Foods.jsx:80 | `filter` keeps the input order: filtering two runs of rows gives the two filtered runs one after the other |
| `FoodView.SelectEmptyTerm` | src/pages/Foods.jsx:79-85 | every row contains the empty term, so the `if (searchTerm)` guard does not change the result |
| `FoodView.MatchesIgnoresTermCase` | src/pages/Foods.jsx:81-83 | a term and its lower-cased form match the same rows |
| `FoodView.FilterFoodsKeeps` | src/pages/Foods.jsx:79-85 | an empty term keeps the list as it is; a non-empty term keeps exactly the matching rows, as many times as in the input; filtering any split of the list gives the filtered parts in the same order |
| `FoodView.SelectIdempotent` | src/pages/Foods.jsx:80-84 | filtering the filtered rows again with the same term changes nothing |
| `FoodView.FilterIdempotent` | src/pages/Foods.jsx:79-85 | the whole filter step is idempotent, empty term included |
| `FoodView.Flip` | src/pages/Foods.jsx:105 | the toggled direction differs from the current one |
| `FoodView.Key` | src/pages/Foods.jsx:89-90 | a present sort field gives its own value and a missing one counts as 0 |
| `FoodView.SortSpecPermutation` | src/pages/Foods.jsx:88-97 | the sorted rows are a permutation of the filtered rows |
| `FoodView.SortSpecSorted` | src/pages/Foods.jsx:88-97 | the sorted rows are ordered by the comparator |
| `FoodView.SortSpecStable` | src/pages/Foods.jsx:88-97 | for every key value, the rows with that key keep their input order (stability) |
| `FoodView.SortSpecCorrect` | src/pages/Foods.jsx:88-97 | permutation; non-decreasing in `field \|\| 0` when ascending and non-increasing otherwise; ties in input order |
| `FoodView.SortedUnique` | src/pages/Foods.jsx:88-97 | two lists that are both ordered and agree on the rows of every key are equal |
| `FoodView.StableSortIsSortSpec` | src/pages/Foods.jsx:88-97 | any ordered, tie-preserving rearrangement of the rows is exactly the model's output |
| `FoodView.InsertInPlace` | src/pages/Foods.jsx:88 | one insertion pass over the array moves the next row into the sorted prefix |
| `FoodView.SortInPlace` | src/pages/Foods.jsx:88-97 | sorting the array in place leaves in it the stable sort of its old contents |
| `FoodView.WithKeySelect` | src/pages/Foods.jsx:80-84 | the matching rows of one key appear in the filtered list in the order they have in the food list |
| `FoodView.DerivedKeepsTies` | src/pages/Foods.jsx:75-100 | in the table, the rows with any one key are the matching rows of that key in the order the server sent them |
| `FoodView.FilteredAndSorted` | src/pages/Foods.jsx:75-100 | filtering a copy and sorting it gives the sort of the filtered list |
| `FoodView.TotalSoldPermutation` | src/pages/Foods.jsx:316-318 | the total of `quantity \|\| 0` does not depend on row order |
| `FoodView.SummaryOfDerived` | src/pages/Foods.jsx:308-319 | the summary's row count and total sold equal those of the filtered rows, for every sort |
| `FoodView.AveragePriceOf` | src/pages/Foods.jsx:262-265 | the average price is a quotient exactly when revenue and quantity are both positive, with a positive divisor, and 0 otherwise |
| `FoodView.SearchExample` | src/pages/Foods.jsx:75-100 | osh and pizza, search "pi", quantity descending: only pizza |
| `FoodView.RevenueAscExample` | src/pages/Foods.jsx:75-100 | osh and pizza, no search, revenue ascending: pizza then osh |
| `FoodsPage.Foods.constructor` | src/pages/Foods.jsx:16-21 | the initial state: loading, no foods, no mock flag, empty search, quantity descending |
| `FoodsPage.Foods.StartFetch` | src/pages/Foods.jsx:25-26 | a fetch sets loading and asks for up to 1000 foods |
| `FoodsPage.Foods.FinishFetch` | src/pages/Foods.jsx:28-43 | a non-empty response replaces the foods and clears the mock flag; otherwise, or on failure, the mock foods are shown and flagged; loading ends in every case |
| `FoodsPage.Foods.OnPush` | src/pages/Foods.jsx:50-55 | a message with `stats` starts a refetch; any other message changes nothing |
| `FoodsPage.Foods.SetSearchTerm` | src/pages/Foods.jsx:179 | the search box sets the term |
| `FoodsPage.Foods.HandleSort` | src/pages/Foods.jsx:102-111 | the active field flips the direction; another field becomes active, descending |
| `FoodsPage.SortTwiceRestores` | src/pages/Foods.jsx:102-111 | pressing the active sort button twice restores the field and the direction |
| `FoodsPage.Foods.FilteredAndSortedFoods` | src/pages/Foods.jsx:75-100 | the table rows are the derived view of the current state, and computing them changes no field |
| `FoodsPage.Foods.Summary` | src/pages/Foods.jsx:308-319 | the summary shows the filtered row count and the filtered total sold |
| `Wrappers.Fetched.OrElse` | src/pages/Dashboard.jsx:40-61 | the body when the request resolved with one, the fallback when it failed or the body is missing |
| `Api.GetTopFoods` | src/services/api.js:17-20 | an absent limit means 10 |
| `Api.GetTimeTrend` | src/services/api.js:27-30 | an absent period means daily |
| `Api.BuildQuery` | src/services/api.js:43-46 | the loop's parameters are the truthy entries, in entry order |
| `Api.KeepTruthyAppend` | src/services/api.js:44-46 | the query of two runs of entries is the two queries one after the other, so entry order is kept |
| `Api.KeepTruthyExactly` | src/services/api.js:45 | the query holds exactly the truthy entries, as many times as the filters do; no falsy value is sent |
| `Api.KeepTruthyNone` | src/services/api.js:45 | filters without a truthy value send no parameter |
| `Api.KeepTruthyIdempotent` | src/services/api.js:44-46 | building the query from an already built query changes nothing |
| `Api.GetOrders` | src/services/api.js:42-49 | the orders request carries the built query; absent filters mean none |
| `Api.ExportToExcel` | src/services/api.js:56-72 | the export sends the built query; it rejects exactly when the request fails; otherwise it saves the body as `orders.xlsx`, whatever the filters |
| `Channel.Subscription.constructor` | src/services/api.js:74-104 | subscribing connects at once; if construction throws, exactly one reconnect is scheduled |
| `Channel.Subscription.Connect` | src/services/api.js:77-102 | a constructed connection becomes current and open; a failed construction schedules one reconnect at 5000 ms and keeps the variable |
| `Channel.Subscription.Message` | src/services/api.js:81-88 | a decoded message reaches the callback once, after the earlier ones; one that fails to decode is dropped and the connection stays open |
| `Channel.Subscription.Error` | src/services/api.js:90-97 | an error closes the current connection, leaves the others as they were, and schedules exactly one reconnect at 5000 ms |
| `Channel.Subscription.FireReconnect` | src/services/api.js:96 | a reconnect timer fires and connects again |
| `Channel.Subscription.Unsubscribe` | src/services/api.js:106-110 | unsubscribing closes the current connection, if any, and changes nothing else; a pending reconnect stays |
| `Channel.Subscription.UnsubscribeAndCancel` | src/services/api.js:106-110 | the intended teardown: closes the connection and cancels the reconnect, after which nothing can happen |
| `Channel.ReconnectAfterUnsubscribe` | src/services/api.js:90-110 | as written, a reconnect firing after unsubscribe opens a new connection whose messages reach the callback |
| `Channel.CancelledReconnect` | src/services/api.js:106-110 | with the reconnect cancelled, the same events leave the subscription with nothing left to fire |
| `Dashboard.OrZero` | src/pages/Dashboard.jsx:134-156 | a missing overview number shows as 0 |
| `Dashboard.BatchRequests` | src/pages/Dashboard.jsx:39-50 | one batch sends six requests, top foods limited to 10 and the trend for the current period |
| `Dashboard.DashboardPage.constructor` | src/pages/Dashboard.jsx:20-27 | the initial state: loading, empty overview, empty lists, null heatmap, daily period |
| `Dashboard.DashboardPage.StartFetch` | src/pages/Dashboard.jsx:31-50 | a fetch sets loading and sends the batch |
| `Dashboard.DashboardPage.FinishFetch` | src/pages/Dashboard.jsx:52-70 | each slot takes its own response, or its own fallback on failure or a missing body; the heatmap is stored as received; a fallback top-foods list has 10 rows; loading ends |
| `Dashboard.DashboardPage.OnPush` | src/pages/Dashboard.jsx:77-81 | a message with `stats` replaces the overview with exactly those stats; any other message leaves it unchanged |
| `Dashboard.DashboardPage.SetPeriod` | src/pages/Dashboard.jsx:88-98 | a period button (line 189) selects the period; the trend is requested only when the period changes, and pressing the active button sends nothing |
| `Dashboard.DashboardPage.Cards` | src/pages/Dashboard.jsx:132-159 | four cards: orders and customers as numbers, revenue and average check as currency; each shows the overview's number, or 0 when it is missing |
| `Dashboard.DashboardPage.FinishTrend` | src/pages/Dashboard.jsx:88-98 | the trend takes the response as received; a failed request leaves it unchanged |
| `Dashboard.IndependentFallback` | src/pages/Dashboard.jsx:39-61 | a failed top-foods request next to a successful category request gives server categories and fallback foods |
| `Analysis.AssignLookup` | src/pages/Analysis.jsx:104-106 | after a filter change the key holds the new value and every other key keeps its value |
| `Analysis.AssignKeepsKeys` | src/pages/Analysis.jsx:104-106 | changing an existing key keeps the keys and their order |
| `Analysis.AssignEntries` | src/pages/Analysis.jsx:104-106 | an assignment adds no key other than the one assigned |
| `Analysis.AssignUnique` | src/pages/Analysis.jsx:104-106 | an assignment never duplicates a key, so a lookup finds the only entry, as in a JavaScript object |
| `Analysis.AssignTwice` | src/pages/Analysis.jsx:104-106 | changing a key twice is changing it to the second value |
| `Analysis.InitialFiltersSendNothing` | src/pages/Analysis.jsx:68-74 | the initial filter record yields no query parameter |
| `Analysis.Rows` | src/pages/Analysis.jsx:299-317 | one row per order, in order, with total `price * quantity` |
| `Analysis.AnalysisPage.constructor` | src/pages/Analysis.jsx:65-74 | the initial state: not loading, no orders or categories, all five filters `''` under distinct keys |
| `Analysis.AnalysisPage.HandleFilterChange` | src/pages/Analysis.jsx:104-106 | sets one key, leaves the others unchanged and keeps the keys distinct |
| `Analysis.AnalysisPage.HandleResetFilters` | src/pages/Analysis.jsx:112-119 | all five keys back to `''`, the initial record, with distinct keys |
| `Analysis.AnalysisPage.FinishFetchCategories` | src/pages/Analysis.jsx:81-89 | a non-empty response is used; otherwise, or on failure, the mock categories |
| `Analysis.AnalysisPage.StartFetchOrders` | src/pages/Analysis.jsx:91-94 | a fetch sets loading and requests the orders with the truthy filters |
| `Analysis.AnalysisPage.FinishFetchOrders` | src/pages/Analysis.jsx:95-101 | a non-empty response is used; otherwise, or on failure, the mock orders; loading ends |
| `Analysis.AnalysisPage.HandleExport` | src/pages/Analysis.jsx:123-130 | exports with the current filters and alerts exactly when the export fails |
| `Analysis.AnalysisPage.Results` | src/pages/Analysis.jsx:252-317 | the result count is the number of orders, and each row's total is price times quantity |
| `Language.InitialLanguage` | src/contexts/LanguageContext.jsx:115-117 | the stored language if there is a non-empty one, else `uz` |
| `Language.Translate` | src/contexts/LanguageContext.jsx:124-126 | the current language's non-empty entry if there is one, else the key; never empty for a non-empty key; defined only for a language in the table |
| `Language.LanguageProvider.T` | src/contexts/LanguageContext.jsx:124-126 | `t` is `Translate` bound to the provider's table and language: the entry or the key, never empty for a non-empty key |
| `Language.LanguageProvider.constructor` | src/contexts/LanguageContext.jsx:114-117 | the provider starts in the initial language |
| `Language.LanguageProvider.ChangeLanguage` | src/contexts/LanguageContext.jsx:119-122 | the language and the stored value both become the new language |
| `Language.ChangeSurvivesReload` | src/contexts/LanguageContext.jsx:115-122 | after a change, a new provider built from the stored value starts in that language |
| `Language.UseLanguage` | src/contexts/LanguageContext.jsx:135-141 | outside a provider it throws the fixed message; inside, it yields the provider |
| `StatCard.FormatValue` | src/components/StatCard.jsx:21-31 | M from a million up (checked first), K from a thousand below a million, no suffix below a thousand (negatives included), non-numbers unchanged; scaled values are n/10^6 and n/1000 |
| `StatCard.ScaledRange` | src/components/StatCard.jsx:23-28 | each suffix is chosen exactly on its range, and the scaled value is at least 1 (below 1000 for K) |

## Left out

- Rendering: JSX, styling, icons, routing, menus and the theme toggle (src/App.jsx). Chart and heatmap configuration (src/components/Chart.jsx, src/components/Heatmap.jsx), including their float tooltip arithmetic.
- Transport: axios, the base URL, `EventSource`, and the percent-encoding done by `URLSearchParams`. A request is modelled as its path and parameter list. A response is a `Fetched` value. A push payload is an already decoded `Option<PushEvent>`.
- The Blob, object URL and anchor click of the export. The download is modelled as the saved file name and body.
- Time and scheduling: the 4-second refetch interval of the foods page, `useEffect` ordering and interleaving. An interval tick is the same event as `FoodsPage.Foods.StartFetch`, and applying "Apply filters" is `StartFetchOrders`. Clearing the interval on teardown is not modelled. Messages the server sends while the channel is disconnected are never delivered, so they are not events.
- The run of the trend effect when the dashboard mounts (src/pages/Dashboard.jsx:88-98). It sends `Api.GetTimeTrend(Some(Daily))` beside the batch of `StartFetch`, and its completion is `FinishTrend`.
- The second cleanup function in the foods page effect (src/pages/Foods.jsx:67-71), which can never run.
- The outer `catch` of the dashboard `fetchData` (src/pages/Dashboard.jsx:62-67). It cannot run, because every request in the batch has its own `catch`.
- The refetch that a filter reset schedules 100 ms later (src/pages/Analysis.jsx:120). It calls a `fetchOrders` closure from the earlier render, so which filters it sends is not stated.
- The random generation of mock orders (src/pages/Analysis.jsx:18-61). The page takes the generated list as a constructor argument.
- The content of the translation table. The provider takes it as a constructor argument.
- The `console.error` logging on the error paths (src/services/api.js:86, 91, 99; src/pages/Foods.jsx:37; src/pages/Dashboard.jsx:63, 94; src/pages/Analysis.jsx:86, 97, 127). It changes no state.
- An exception thrown by the live-update callback. The `try` in `onmessage` (src/services/api.js:82-87) catches it and logs it like a decode failure; `Channel.Subscription.Message` treats every delivery as completing.
- A food row without a string `food_name`. `food.food_name.toLowerCase()` (src/pages/Foods.jsx:82) then throws during rendering; `FoodStat.foodName` is always a string, so such a row cannot be expressed.
- Local storage beyond the value written under `language`.
- JavaScript numbers: counts and money in the food and order rows are integers, other numbers are exact `real`s. `NaN` is not modelled.
- Text.Lower: lower-cases ASCII letters only, not full Unicode case folding.
- FoodView.AveragePriceOf: keeps `revenue / quantity` as an unevaluated quotient, because the floating-point division and its currency formatting are not modelled.
- StatCard.FormatValue: keeps the scaled value exact, because the one-decimal rounding of `toFixed(1)` and the locale grouping of `toLocaleString` are not modelled.
- StatCard.ScaledRange: its bound "below 1000 for K" holds for the exact quotient only. The displayed text is rounded by `toFixed(1)`, so values from 999950 up to a million show as `1000.0K`.
- Dashboard.DashboardPage.FinishFetch: a body is typed, so a falsy non-object body (`0`, `''`) is not modelled; only a missing body or a failure falls back.

## Findings

| source | as written | input that shows it | evidently intended | confidence | as-written member | corrected member |
|---|---|---|---|---|---|---|
| src/services/api.js:90-110 | the unsubscribe function closes the current connection but leaves a scheduled reconnect in place | subscribe; connection error; unsubscribe; the 5000 ms timer fires: a new connection opens, nothing closes it, and its messages reach the callback of an unmounted page | unsubscribing also cancels the pending reconnect, so nothing happens after teardown | not executed | `Channel.ReconnectAfterUnsubscribe` | `Channel.Subscription.UnsubscribeAndCancel` |

# Portfolio tracker: holding registry, price resolver and client cache

A Dafny model of the two pieces of logic in a small portfolio tracker.

The first is the API server (`server/index.js`). It keeps an in-memory registry of equity holdings: an ordered list plus an id counter, mutated by the create and clear handlers and read by the list handler. It also resolves prices, with a deterministic mock when no provider key is configured, behind the `/api/price` endpoint.

The second is the browser client (`client/src/App.jsx`). It keeps a local cache of holdings. The cache is reloaded from the list, extended by the add form, annotated with prices, emptied by the clear button, and summed into a total.

Modules, one per file:

- `Wrappers` (`wrappers.dfy`): `Option`, which stands for JavaScript's null, undefined or an absent field.
- `Ascii` (`ascii.dfy`): `toUpperCase` on ASCII letters.
- `HoldingRegistry` (`registry.dfy`): the server's store. It has two forms:
  - pure step functions on a `Store` value, used for reasoning about sequences of requests;
  - the class `Registry`, whose fields `holdings` and `nextId` the handlers update in place. Each of its methods is tied to the matching step function.
- `PriceResolver` (`price.dfy`): `fetchPrice` and the `/api/price` handler.
- `Client` (`client.dfy`): the cache transformations as functions on `seq<Holding>`, and the class `App`, whose methods replace the cache and the form state.
- `EndToEnd` (`endtoend.dfy`): how the server's replies reach the client, and scenarios that run across both.

Numbers are `real`. The random jitter of the mock is a parameter in [0, 5). The clock reading used by the client's fallback id is a parameter too. Network results are inputs: `Outcome` is `Ok(payload) | BadStatus | Error`, and the live provider's answer is `Quote`.

Behaviour of the code worth noting:

- In live mode the price response names its source `"finnhub"`; in mock mode, `"mock"`.
- The clear button empties the cache whenever the request returns, even with a non-ok status. Only a thrown error leaves the cache as it was.
- An absent average price is stored by the server as 0. The client sends it as null.
- The create handler does not reject a quantity that is not a number. The model's typed inputs cannot express one.

## Model

| member | source | states |
|---|---|---|
| Ascii.UpperChar | server/index.js:30 | a-z maps to A-Z (code minus 32); every other character is kept; the result is never a lower-case letter |
| Ascii.ToUpper | server/index.js:30 | same length; each character upper-cased in place; the result holds no lower-case letter |
| Ascii.ToUpperOfUpper | server/index.js:30 | upper-casing an already upper-case string leaves it unchanged |
| Ascii.ToUpperIdempotent | client/src/App.jsx:52 | upper-casing twice (client, then server) equals upper-casing once |
| HoldingRegistry.StoredAvgPrice | server/index.js:32 | an absent average price is stored as 0, a given one as itself; the result is 0 exactly when the input is absent or 0 |
| HoldingRegistry.NewHolding | server/index.js:28-33 | the stored record has the given id, the upper-cased symbol, the given quantity and the coerced average price, and is a valid holding |
| HoldingRegistry.CreateStep | server/index.js:24-40 | the request is rejected exactly when the symbol is missing or empty, or the quantity is missing or zero; a rejection answers "symbol and quantity required" and leaves the store unchanged; an acceptance appends one holding with id = old counter and bumps the counter by one; well-formedness is preserved |
| HoldingRegistry.ClearStep | server/index.js:46-50 | afterwards there are no holdings and the counter is 1, a well-formed store |
| HoldingRegistry.ListStep | server/index.js:43 | the list is the stored holdings in insertion order |
| HoldingRegistry.RunWellFormed | server/index.js:17-50 | any sequence of create, list and clear requests keeps ids = 1..n in order, counter = n + 1, symbols non-empty and upper-case, quantities non-zero |
| HoldingRegistry.AppendOnlyBetweenClears | server/index.js:29-34 | with no clear in between: earlier holdings stay as a prefix; length and counter grow by the number of accepted creates; new ids are consecutive from the old counter |
| HoldingRegistry.IdsIncreasing | server/index.js:29 | in a well-formed store ids strictly increase in list order and all lie in [1, counter) |
| HoldingRegistry.ClearThenCreate | server/index.js:46-50 | after a clear the next accepted create gets id 1 and is the only holding; clearing twice equals clearing once |
| HoldingRegistry.Registry.constructor | server/index.js:17-18 | the registry starts with no holdings and counter 1 |
| HoldingRegistry.Registry.Create | server/index.js:24-40 | new state and reply are those of CreateStep: rejection changes neither field; acceptance appends the new holding and increments the counter |
| HoldingRegistry.Registry.List | server/index.js:43 | returns the stored holdings unchanged, with ids 1..n in order |
| HoldingRegistry.Registry.Clear | server/index.js:46-50 | the holdings become empty and the counter 1 |
| PriceResolver.ModeOf | server/index.js:14 | the resolver is live exactly when a non-empty provider key is set |
| PriceResolver.CharCode | server/index.js:58 | the first UTF-16 code unit of a code point: the code point itself below 0x10000, a high surrogate in [0xD800, 0xDC00) above, always in [0, 0x10000) |
| PriceResolver.CodeSum | server/index.js:58 | the left-folded sum of code units is non-negative (so `%` agrees with JavaScript's) and at most 0xFFFF per character |
| PriceResolver.CodeSumAppend | server/index.js:58 | the sum splits over concatenation, so the fold order does not matter |
| PriceResolver.MockBase | server/index.js:55-58 | the mock base lies in [20, 220) |
| PriceResolver.MockBaseCaseInsensitive | server/index.js:55-58 | symbols with equal upper-case forms have equal bases, and the base of a symbol equals that of its upper-case form |
| PriceResolver.FetchPrice | server/index.js:53-66 | empty symbol fails (and only then) with "symbol required"; in mock mode the price is exactly base + jitter, within [20, 225); live mode returns the quote, "price not available" when it is absent, or the provider's error |
| PriceResolver.MockDeterministicUpToJitter | server/index.js:58-59 | two mock lookups of the same symbol both succeed; each price less its jitter is the same MockBase(symbol), so the two differ by less than 5 |
| PriceResolver.PriceEndpoint | server/index.js:69-79 | a missing or empty symbol answers 400 "symbol required", and only then; a 200 echoes the upper-cased symbol and the mode's source name; only the guard answers 400; for a non-empty symbol the answer is 200 exactly when FetchPrice resolves, with FetchPrice's price, and every failed lookup answers exactly 502 "price_fetch_failed" with the error's text as detail, which happens only in live mode; in mock mode a non-empty symbol always answers 200 with base + jitter |
| Client.Loaded | client/src/App.jsx:30-46 | the cache becomes exactly the payload when an ok response holds an array; it becomes empty on a non-array payload, a bad status or a thrown error |
| Client.BuildBody | client/src/App.jsx:51-55 | the body's symbol is the upper-cased form symbol (empty only for an empty one); quantity is the input, or 0 when blank; average price is null exactly when the input is blank |
| Client.Fallback | client/src/App.jsx:75-82 | a response without JSON is recorded as the body's fields under the clock's id, with no price |
| Client.AfterAdd | client/src/App.jsx:59-88 | on an ok status the cache grows by exactly one element at the end, earlier elements unchanged; that element is the server's record, or the fallback when there is none; on a bad status or an error the cache is unchanged |
| Client.PriceFrom | client/src/App.jsx:108-117 | a price is present exactly when the status was ok and the response carried one; a bad status, an error or a missing field give null |
| Client.AnnotatePrices | client/src/App.jsx:102-119 | same length and order; each element equals its original except for currentPrice; that price is the result of its own lookup |
| Client.FailureIsolated | client/src/App.jsx:103-118 | changing one lookup's outcome changes no other row; a bad status or error sets that row's price to null |
| Client.RefreshOverwritesPrices | client/src/App.jsx:103-122 | the result of a refresh does not depend on previous prices; refreshing twice with the same outcomes equals refreshing once |
| Client.TotalValue | client/src/App.jsx:128-135 | the total of an empty cache is 0 |
| Client.TotalValueAppend | client/src/App.jsx:129-133 | the total of a concatenation is the sum of the totals |
| Client.UnresolvedRowAddsNothing | client/src/App.jsx:129-133 | a holding with a null price contributes nothing: the total equals that of the other rows |
| Client.NoPricesZeroTotal | client/src/App.jsx:128-135 | with no price resolved the total is 0 |
| Client.RowValue | client/src/App.jsx:212-216 | "-" exactly when the price is null, never a 0 in its place; otherwise price times quantity, a missing quantity counted as 0 |
| Client.TotalIsColumnSum | client/src/App.jsx:128-135 | the total equals the sum of the value column with each "-" counted as 0 |
| Client.AfterClear | client/src/App.jsx:172-180 | the cache is emptied when the clear request returns, and unchanged when it throws |
| Client.App.constructor | client/src/App.jsx:10-13 | the page starts with an empty cache and the form "AAPL" / "1" / "" |
| Client.App.FetchHoldings | client/src/App.jsx:30-46 | the cache becomes Loaded of the outcome; the form is untouched |
| Client.App.AddHolding | client/src/App.jsx:48-97 | the cache becomes AfterAdd of the form's body; the form is reset to "" / "1" / "" only on success |
| Client.App.FetchPrices | client/src/App.jsx:99-126 | the cache becomes AnnotatePrices of the old cache and the per-holding outcomes |
| Client.App.ClearAll | client/src/App.jsx:172-180 | the cache becomes AfterClear of the outcome |
| Client.App.Total | client/src/App.jsx:128-135 | the total shown is the value column's sum with "-" rows counted as 0 |
| EndToEnd.FromServer | server/index.js:35 | the JSON record keeps id, symbol, quantity and average price, and has no price yet |
| EndToEnd.ListResponse | server/index.js:43 | the list response is an ok array holding each stored holding in order |
| EndToEnd.ServerBody | client/src/App.jsx:59-64 | the posted body reaches the server with its symbol, quantity and average price (null as absent) |
| EndToEnd.PostResponse | client/src/App.jsx:66-73 | the client sees an ok status exactly when the server created the holding, with the created record as payload |
| EndToEnd.PriceResponse | client/src/App.jsx:105-113 | the client reads a price exactly when the endpoint answered 200, and it is that price |
| EndToEnd.AddFormRoundTrip | client/src/App.jsx:48-88 | for any store, a form with a symbol and a non-zero quantity is stored under the server's next id with the upper-cased symbol and is appended as such to the cache; any other form changes neither the store nor the cache |
| EndToEnd.LoadMirrorsStore | client/src/App.jsx:30-46 | after any requests, loading the list gives the cache every stored holding in order, with ids 1..n |
| EndToEnd.MockBaseExamples | server/index.js:58 | "AAPL" and "aapl" both have base 106 and "MSFT" has 134 |
| EndToEnd.AaplScenario | client/src/App.jsx:99-135 | create "aapl" x 2 at 150 on a fresh server: the record is id 1 "AAPL"; a mock refresh of the cached symbol resolves its price to 106 + jitter; row value and total are both twice that price |
| EndToEnd.ClearScenario | server/index.js:46-50 | two creates then a clear: the list is empty and the next create gets id 1 |

## Left out

- Express set-up, CORS, environment loading, the root route and `app.listen` (server/index.js:2-13, 20-21, 95): process and framework wiring.
- The clear handler's `{ ok: true }` reply body (server/index.js:49): `ClearStep` and `Registry.Clear` model only the state change. The client ignores that body and empties its cache once the request returns (client/src/App.jsx:175-176).
- The create handler's 500 branch (server/index.js:36-39): nothing in the typed model can throw in that block. In the source, `id: nextId++` runs before `String(symbol)` and `Number(...)` (server/index.js:29-32). A JSON body whose coercion throws, such as `symbol: {"toString": 0}`, would use up an id, store nothing and answer 500. So "ids = 1..n" (RunWellFormed, LoadMirrorsStore) holds only for typed bodies.
- The `/api/quote` route (server/index.js:82-93): it repeats `/api/price` line for line, so `PriceEndpoint` covers it.
- The live lookup's HTTP request, URL encoding and 5-second timeout (server/index.js:61-62). The provider's answer is the input `Quote`.
- `Math.random()`: the jitter is a parameter in [0, 5).
- `toFixed(2)` rounding of the mock price and of the total: decimal formatting is not modelled, so prices and totals are exact reals.
- Ascii.UpperChar: upper-cases only a-z. JavaScript's `toUpperCase` also maps non-ASCII letters and can lengthen a string ("ß" to "SS").
- JavaScript coercion beyond "absent or zero":
  - `NaN` from `Number("abc")`;
  - numbers sent as strings;
  - non-string symbols passed through `String(...)`;
  - a repeated `symbol` query parameter.
  Inputs are typed instead.
- The concurrency of `Promise.all` in `fetchPrices` (client/src/App.jsx:102): the lookups are a per-holding sequence of outcomes. In the source, `fetchPrices` maps the cache it read when it started and then replaces the whole cache. A holding added while a refresh is in flight would be dropped. This interleaving is not modelled.
- JSX rendering, `useState`/`useEffect` plumbing, `alert` and `console` output, the form's change handlers, and the average-price and current-price columns' formatting.
- The debugging hook `window.__ADD_HOLDING_FROM_CONSOLE` (client/src/App.jsx:15-28) and the random row key (client/src/App.jsx:199).
- Malformed elements inside a JSON array returned by the list request: elements are typed as `Client.Holding`.
- server/db.js is not part of this model: it only configures a database pool that the core does not use.

# Live stock quotes: relay, subscriber client and dashboard lists

This project models the core of a small live-quote system for Hong Kong stocks and proves properties of that model.

The system has three parts.

- **The quote relay.** It keeps two things:
  - a set of live subscriber connections;
  - a last-known-value cache from symbol to quote.

  Its handlers do the rest. Refreshing a list of symbols fetches each one from the upstream chart service, in order. Each success is written to the cache and broadcast to every OPEN connection. A new connection is sent one update per cached quote. Close and error unregister a connection. `GET /api/stocks` reads the cache, and a periodic tick refreshes every cached symbol.
- **The subscriber client.** It keeps a per-symbol observer map in which `"*"` is the wildcard, and the set of symbols it has subscribed to. It also keeps a reconnect counter that stops at five and the id of the last reconnect timer it scheduled. Its events are open, message and close. A module-level singleton hands out the one client.
- **The dashboard pages.** Three pages edit a list of stocks and a list of portfolio weights with these operations:
  - validated and unvalidated add;
  - per-row edits;
  - delete with a cascading weight filter;
  - weight upsert or append;
  - value-proportional weights;
  - the symbol typeahead;
  - the merge of a live quote into the matching rows;
  - the portfolio value.

## How the model is built

Each module follows the file it models:

| module | models |
|---|---|
| `QuoteSource` | the normalisation of one upstream chart response |
| `RelayServer` | the relay |
| `StockClient` | the client class and its singleton |
| `Portfolio` | the operations the pages share |
| `DashboardClean` | `page_clean.tsx` |
| `DashboardNew` | `page_new.tsx` |
| `DashboardBasic` | `page.tsx` |

Two modules of shared values support them:
- `Common`: option values, JavaScript truthiness of numbers, the quote and the wire messages;
- `Strings`: ASCII upper-casing, `includes`, and `split`/`join` on one character.

Where the source changes state in place, the model is a class:
- the relay's `clients` set and `stockData` map are fields of `RelayServer.Relay`;
- every connection is a `RelayServer.Connection` whose `send` appends to an `outbox`;
- the client's fields are fields of `StockClient.StockWebSocketClient`.

Each of their methods is proved against specification functions:
- `RefreshCache` and `Broadcasts` describe a refresh of a list of symbols;
- `Snapshot` describes what a new connection is sent;
- `Dispatch` and `ReconnectStep` describe the client's update dispatch and reconnect step.

Lemmas then prove what those functions promise: the cache only grows, order is kept, failures are skipped, and the reconnect counter is bounded. The per-row edits copy the list into an array and assign one slot, as the pages do. The confirmed delete is a method that returns the new list, the new weights and the cleared confirmation. The other page operations are pure functions over sequences.

The following are parameters rather than modelled code:
- The upstream HTTP fetch is an oracle `upstream` from symbol to parsed response; None means the request or the parse failed.
- The clock is a parameter `now`.
- Callbacks are opaque identities, and each call is logged in the client's `invoked` sequence.
- The runtime's pending reconnect timers are a set of timer ids.

A percentage change that the source computes as a non-finite number is `None`. This happens when the previous price is zero. JSON serialisation turns such a number into null.

## Model

| member | source | states |
|---|---|---|
| Strings.ToUpper | frontend/src/app/page_new.tsx:395-398 | the result has the input's length and every character is the ASCII upper-case form of the input's character at that position |
| Strings.ToUpperIdempotent | frontend/src/app/page_clean.tsx:253 | upper-casing an upper-cased string changes nothing |
| Strings.Includes | frontend/src/app/page_clean.tsx:257 | a string that starts with the query includes it |
| Strings.IncludesMeansOccurs | frontend/src/app/page_clean.tsx:257 | `includes` holds exactly when the query occurs at some position of the string (both directions) |
| Strings.IncludesEmpty | frontend/src/app/page_clean.tsx:253-254 | every string includes the empty query |
| Strings.Split | backend/server.js:147 | splitting always yields at least one part and no part contains the separator |
| Strings.JoinSplit | backend/server.js:147 | joining the parts of a split with the same separator gives back the original string |
| Strings.SplitJoin | backend/server.js:147 | splitting a join of separator-free parts gives back those parts |
| QuoteSource.LastClose | backend/server.js:37-40 | there is a last close exactly when the first quote series has a non-empty close list, and it is that list's last element |
| QuoteSource.CurrentPrice | backend/server.js:40 | the price is `regularMarketPrice` when that is truthy, otherwise the last close |
| QuoteSource.PercentageChange | backend/server.js:45 | the change is a number exactly when the previous close is not zero, and then it times the previous close equals the price change times 100 |
| QuoteSource.Normalise | backend/server.js:41-54 | the quote carries the symbol, price and previous close, a price change that added to the previous close gives the price, the percentage change of that change, and the capture time |
| QuoteSource.FetchStockData | backend/server.js:26-59 | no response or no non-empty `chart.result` gives no quote; otherwise there is a quote exactly when a price can be read, and it carries the truthy `regularMarketPrice` or else the last close, the previous close, price minus previous close, the percentage change of that difference against the previous close, and the capture time |
| QuoteSource.PercentageExample | backend/server.js:44-45 | a price of 105 against a previous close of 100 is a change of 5, or 5 percent |
| RelayServer.Fetch | backend/server.js:74 | the quote `fetchStockData` yields for one symbol: the oracle's response for that symbol normalised by `QuoteSource.FetchStockData`, whose contract states every field |
| RelayServer.RefreshCache | backend/server.js:72-85 | the cache after refreshing the symbols in order, each success written over its entry; its contract says no key is removed and every new key is a requested symbol, and RefreshEntry, RefreshKeys and RefreshAllFailed prove the rest |
| RelayServer.Broadcasts | backend/server.js:73-84 | the STOCK_UPDATEs of one refresh in input order, one per successful fetch; its contract bounds them by the requested symbols and says each is an update for a requested symbol, and BroadcastsAppend and BroadcastsCover prove order and completeness |
| RelayServer.Snapshot | backend/server.js:99-105 | one STOCK_UPDATE per listed symbol, in list order, each carrying that symbol's cached quote |
| RelayServer.RefreshEntry | backend/server.js:72-85 | after a refresh a symbol is cached exactly when it was cached before or its fetch succeeded; a successful symbol holds its fetched quote and every other entry is unchanged |
| RelayServer.RefreshKeys | backend/server.js:72-85 | the cache's keys after a refresh are the old keys plus the successfully fetched symbols: nothing is ever removed |
| RelayServer.BroadcastsAppend | backend/server.js:73-84 | refreshing `a` then `b` broadcasts `a`'s updates then `b`'s: input order is kept |
| RelayServer.BroadcastsCover | backend/server.js:73-84 | every broadcast is a STOCK_UPDATE with a successfully fetched quote of a requested symbol, every successful symbol is broadcast, and there are at most as many broadcasts as requested symbols (a symbol requested twice is fetched and broadcast twice) |
| RelayServer.RefreshAllFailed | backend/server.js:73-75 | when every fetch fails the cache is unchanged and nothing is broadcast |
| RelayServer.CachedQuotes | backend/server.js:148 | at most one quote per requested symbol, and every quote comes from the cache |
| RelayServer.CachedQuotesAppend | backend/server.js:148 | the answer for `a + b` is the answer for `a` followed by the answer for `b`: request order is kept |
| RelayServer.CachedQuotesAllCached | backend/server.js:148 | when every requested symbol is cached the answer is their quotes, one for one, in request order |
| RelayServer.CachedQuotesNoneCached | backend/server.js:148 | symbols that are not cached are dropped silently |
| RelayServer.StocksQuery | backend/server.js:146-150 | a missing or empty `symbols` query yields an empty list; otherwise the cached quotes of the comma-separated symbols |
| RelayServer.Relay.constructor | backend/server.js:16-20 | the relay starts with no connections and an empty cache |
| RelayServer.Relay.BroadcastToClients | backend/server.js:62-69 | every OPEN connection receives the message exactly once and the others nothing; no connection is added or removed and no readyState changes |
| RelayServer.Relay.UpdateStockData | backend/server.js:72-85 | the cache becomes the in-order refresh of the symbols, and every OPEN connection receives exactly the STOCK_UPDATEs of the successful fetches, in input order |
| RelayServer.Relay.Accept | backend/server.js:95-105 | the connection is registered and sent one STOCK_UPDATE per cached entry, in some enumeration of the cache's keys; the cache is unchanged |
| RelayServer.Relay.HandleMessage | backend/server.js:107-121 | a SUBSCRIBE refreshes exactly its symbols as UpdateStockData does; any other message changes nothing |
| RelayServer.Relay.Unregister | backend/server.js:123-131 | close and error remove the connection; removing an absent connection changes nothing; the cache is unchanged |
| RelayServer.Relay.Tick | backend/server.js:159-164 | the tick refreshes exactly the current cache keys, in some order, and nothing when the cache is empty; the key set stays the same |
| StockClient.Dispatch | frontend/src/services/stockWebSocket.ts:71-82 | one call for the symbol's observer if present, then one for the wildcard observer if present, each with the update |
| StockClient.DispatchOnlyRegistered | frontend/src/services/stockWebSocket.ts:71-82 | a callback registered under neither the symbol nor `"*"` is never invoked |
| StockClient.ReconnectStep | frontend/src/services/stockWebSocket.ts:84-100 | at or above the maximum of 5 the counter is unchanged and nothing is scheduled; below it the counter goes up by one and one reconnect is scheduled |
| StockClient.ReconnectsBounded | frontend/src/services/stockWebSocket.ts:84-100 | after any number of closes without an open the counter is `min(attempts + closes, 5)` and `min(closes, 5 - attempts)` reconnects are scheduled, so never a sixth from a fresh open |
| StockClient.StockWebSocketClient.constructor | frontend/src/services/stockWebSocket.ts:16-25 | a new client holds no socket, no timer, no observers, no symbols and a zero counter |
| StockClient.StockWebSocketClient.IsConnected | frontend/src/services/stockWebSocket.ts:152-154 | connected exactly when the held socket is OPEN; Disconnect ensures it is false afterwards |
| StockClient.StockWebSocketClient.Connect | frontend/src/services/stockWebSocket.ts:27-30 | connecting replaces the socket by a new CONNECTING one |
| StockClient.StockWebSocketClient.OnOpen | frontend/src/services/stockWebSocket.ts:32-42 | the counter is reset to zero; with subscribed symbols one SUBSCRIBE carrying exactly those symbols is sent, otherwise nothing |
| StockClient.StockWebSocketClient.OnMessage | frontend/src/services/stockWebSocket.ts:44-54 | a STOCK_UPDATE invokes exactly the dispatched callbacks; any other or malformed message changes nothing |
| StockClient.StockWebSocketClient.HandleStockUpdate | frontend/src/services/stockWebSocket.ts:71-82 | the invocation log grows by exactly the dispatched callbacks |
| StockClient.StockWebSocketClient.OnClose | frontend/src/services/stockWebSocket.ts:56-59 | a close of the held socket marks it CLOSED; a close of a socket the client already replaced, by a later connect or by disconnect, leaves the held socket as it is; either way one reconnect step is taken, and observers and symbols are unchanged |
| StockClient.StockWebSocketClient.AttemptReconnect | frontend/src/services/stockWebSocket.ts:84-100 | the counter and scheduling follow ReconnectStep; a scheduled timer is fresh and its id overwrites the held one without cancelling the earlier timer |
| StockClient.StockWebSocketClient.OnReconnectTimer | frontend/src/services/stockWebSocket.ts:95-99 | a fired timer is no longer pending and the client connects again |
| StockClient.StockWebSocketClient.SubscribeToSymbols | frontend/src/services/stockWebSocket.ts:102-112 | unless the socket is OPEN nothing changes and nothing is sent; on an OPEN socket one SUBSCRIBE with exactly the symbols is sent and they join the subscribed set |
| StockClient.StockWebSocketClient.Subscribe | frontend/src/services/stockWebSocket.ts:114-121 | the callback replaces any earlier observer of the symbol; the symbol is recorded and requested only when the socket is OPEN |
| StockClient.StockWebSocketClient.Unsubscribe | frontend/src/services/stockWebSocket.ts:123-126 | the disposer removes the symbol from both the observers and the subscribed set, and no other key |
| StockClient.StockWebSocketClient.SubscribeToAll | frontend/src/services/stockWebSocket.ts:129-130 | the callback becomes the wildcard observer and no other observer changes |
| StockClient.StockWebSocketClient.UnsubscribeAll | frontend/src/services/stockWebSocket.ts:132-134 | the disposer removes only the wildcard observer |
| StockClient.StockWebSocketClient.Disconnect | frontend/src/services/stockWebSocket.ts:137-154 | the held timer is cancelled and its id cleared, the socket is let go, observers and subscribed symbols are emptied, and the client is no longer connected |
| StockClient.ClientSlot.GetStockWebSocketClient | frontend/src/services/stockWebSocket.ts:157-165 | the first call creates a client for the default URL; every later call returns that same client |
| StockClient.CloseOfReplacedSocket | frontend/src/services/stockWebSocket.ts:27-59 | after connect, disconnect and connect again, the close of the first socket schedules one reconnect and the new socket still opens, with the counter reset |
| StockClient.SingletonTwice | frontend/src/services/stockWebSocket.ts:160-165 | two calls return the same client |
| Portfolio.Validate | frontend/src/app/page_clean.tsx:503-507 | one message per failed check: an empty symbol, a price of at most zero and a quantity of at most zero, each with its exact text |
| Portfolio.ValidateAcceptable | frontend/src/app/page_new.tsx:441-449 | there are no errors exactly when the symbol is non-empty and price and quantity are positive |
| Portfolio.SubmitNewStock | frontend/src/app/page_clean.tsx:501-519 | the errors are always recorded; an acceptable stock is appended at the end and the form is reset and closed; otherwise list and form are unchanged apart from the errors |
| Portfolio.SubmitAddsOnlyAcceptable | frontend/src/app/page_new.tsx:440-458 | the list either grows by one acceptable stock at its end, with the old rows as its prefix, or stays the same with errors shown |
| Portfolio.SetSymbolInput | frontend/src/app/page_clean.tsx:365-371 | the query keeps the typed text, the stored symbol is its upper-cased form, and nothing else in the form changes |
| Portfolio.SetSymbolInputUpperCase | frontend/src/app/page_new.tsx:393-399 | the stored symbol has the typed length and no lower-case ASCII letter |
| Portfolio.EditPrice | frontend/src/app/page_clean.tsx:607-615 | only the price of the edited row changes, to the parsed number or zero; length and every other row are unchanged |
| Portfolio.EditQuantity | frontend/src/app/page_clean.tsx:622-630 | only the quantity of the edited row changes, to the parsed integer or zero; length and every other row are unchanged |
| Portfolio.WithoutSymbol | frontend/src/app/page_clean.tsx:679-681 | the filter keeps exactly the weights of other symbols |
| Portfolio.WithoutSymbolAppend | frontend/src/app/page_clean.tsx:679-681 | the filter keeps the order of what it keeps |
| Portfolio.WithoutSymbolCount | frontend/src/app/page.tsx:279-281 | after a delete no weight for the removed symbol is left |
| Portfolio.RemoveConfirmed | frontend/src/app/page_clean.tsx:672-683 | the confirmed row is removed and the others keep their order; every weight for its symbol is dropped and the confirmation is cleared; with nothing confirmed nothing changes |
| Portfolio.CountSymbolAppend | frontend/src/app/page.tsx:95-97 | the count of a symbol's weights over a concatenation is the sum of the counts |
| DashboardClean.HasSymbol | frontend/src/app/page_clean.tsx:216 | `portfolio.find(p => p.symbol === symbol)` succeeds exactly when some weight has that symbol; HasSymbolCount ties it to the count of the symbol's weights |
| DashboardClean.HasSymbolCount | frontend/src/app/page_clean.tsx:216 | `find` finds the symbol exactly when it has at least one weight |
| DashboardClean.SetWeight | frontend/src/app/page_clean.tsx:218 | the same rows in the same order, with the weight replaced exactly in the rows of the symbol |
| DashboardClean.Upsert | frontend/src/app/page_clean.tsx:214-222 | a recorded symbol keeps length and order and only its weight changes; a new symbol is appended at the end |
| DashboardClean.UpsertRecords | frontend/src/app/page_clean.tsx:214-222 | afterwards the symbol is recorded and every entry for it carries the new weight |
| DashboardClean.UpsertCount | frontend/src/app/page_clean.tsx:214-222 | upserting never duplicates: a recorded symbol keeps its count and a new one appears once |
| DashboardClean.UpsertLatestWins | frontend/src/app/page_clean.tsx:214-222 | a second upsert of the same symbol gives what upserting only the second weight gives |
| DashboardClean.TotalValue | frontend/src/app/page_clean.tsx:226-229 | the sum of price times quantity over the stocks; it is non-negative when every stock's value is, and WeightsSum and OptimizeWeightsSumTo100 use it as the divisor |
| DashboardClean.Weights | frontend/src/app/page_clean.tsx:230-233 | one weight per stock, in stock order, under the stock's own symbol |
| DashboardClean.WeightsAt | frontend/src/app/page_clean.tsx:230-233 | each stock's weight is its price times quantity as a percentage of the total |
| DashboardClean.ShareScales | frontend/src/app/page_clean.tsx:232 | a weight times the total it was computed against is the stock's value times 100 |
| DashboardClean.OptimizeWeights | frontend/src/app/page_clean.tsx:224-235 | no weights for an empty list, with no division; otherwise one weight per stock in stock order, each price times quantity as a percentage of the portfolio's total value |
| DashboardClean.WeightsSum | frontend/src/app/page_clean.tsx:226-233 | the weights add up to the whole list's value as a percentage of the divisor |
| DashboardClean.OptimizeWeightsSumTo100 | frontend/src/app/page_clean.tsx:224-235 | the optimised weights add up to 100 |
| DashboardClean.Take | frontend/src/app/page_clean.tsx:254-257 | `slice(0, 10)` is a prefix of at most ten elements, the whole list when it is short |
| DashboardClean.Matching | frontend/src/app/page_clean.tsx:257 | the filter keeps exactly the available symbols that include the query |
| DashboardClean.MatchingAppend | frontend/src/app/page_clean.tsx:257 | the filter keeps list order |
| DashboardClean.MatchingEmptyQuery | frontend/src/app/page_clean.tsx:253-257 | the empty query matches every symbol |
| DashboardClean.Typeahead | frontend/src/app/page_clean.tsx:252-259 | at most ten suggestions: the first ten available symbols for an empty query, otherwise the first ten that contain the upper-cased query |
| DashboardClean.TypeaheadIsFilter | frontend/src/app/page_clean.tsx:252-259 | for every query, including the empty one, the list is the first ten symbols that contain the upper-cased query |
| DashboardClean.TypeaheadSound | frontend/src/app/page_clean.tsx:252-259 | every suggestion is an available symbol in which the upper-cased query occurs |
| DashboardClean.TypeaheadComplete | frontend/src/app/page_clean.tsx:252-259 | a matching symbol is left out only when ten suggestions are already shown |
| DashboardClean.PickSuggestion | frontend/src/app/page_clean.tsx:395-399 | the picked symbol becomes both the stored symbol and the query, every other field of the stock and the form is kept, and the handler's own update empties the suggestion list (the query change then re-runs the typeahead, which `Typeahead` models) |
| DashboardClean.PickedSymbolIsValid | frontend/src/app/page_clean.tsx:395-399 | a non-empty picked suggestion passes the symbol check |
| DashboardClean.RelativeChange | frontend/src/app/page_clean.tsx:183-184 | the change is a number exactly when the previous price is not zero, and then it times the previous price equals the price difference times 100 |
| DashboardClean.MergeLive | frontend/src/app/page_clean.tsx:177-194 | length, order, symbols, prices and quantities are kept; rows of other symbols are unchanged; rows of the quoted symbol take the live price and the change from their own previous price |
| DashboardClean.MergeLiveRepeat | frontend/src/app/page_clean.tsx:181-189 | the same non-zero quote delivered twice reports a change of zero the second time |
| DashboardClean.MergeLiveCommutes | frontend/src/app/page_clean.tsx:177-194 | quotes for different symbols can be merged in either order |
| DashboardNew.MergeLive | frontend/src/app/page_new.tsx:243-255 | length, order, symbols, prices and quantities are kept; rows of other symbols are unchanged; rows of the quoted symbol take its price and percentage change |
| DashboardNew.MergeLiveIdempotent | frontend/src/app/page_new.tsx:243-255 | merging the same quote twice is merging it once |
| DashboardNew.MergeLiveCommutes | frontend/src/app/page_new.tsx:243-255 | quotes for different symbols can be merged in either order |
| DashboardNew.PortfolioValue | frontend/src/app/page_new.tsx:675-681 | the sum over the rows of the live price, or the entered price before a quote, times the quantity; it is non-negative when every row's value is, and PortfolioValueAppend and MergeLiveValue prove how it changes |
| DashboardNew.PortfolioValueAppend | frontend/src/app/page_new.tsx:675-681 | the value of a concatenation is the sum of the values, so an appended stock adds its live-or-entered price times its quantity |
| DashboardNew.OtherSymbols | frontend/src/app/page_new.tsx:243-255 | the kept rows all come from the list and belong to other symbols |
| DashboardNew.ValueAtShares | frontend/src/app/page_new.tsx:675-681 | valuing a symbol's rows at one price is that price times the shares held |
| DashboardNew.MergeLiveValue | frontend/src/app/page_new.tsx:675-681 | after a non-zero quote the portfolio is worth its other rows, untouched, plus the quoted symbol's rows at the quoted price |
| DashboardNew.MergedRowValue | frontend/src/app/page_new.tsx:678-679 | a row that took a non-zero live price is worth that price times its quantity |
| DashboardNew.PortfolioValueSnoc | frontend/src/app/page_new.tsx:675-681 | appending a row adds that row's value |
| DashboardNew.HandleOptimize | frontend/src/app/page_new.tsx:276-283 | the portfolio is left as it is; with no stocks only the alert is raised, otherwise the optimisation is marked as running |
| DashboardBasic.AddIfSymbol | frontend/src/app/page.tsx:174-179 | a stock with a symbol is appended and the form cleared; without a symbol nothing changes |
| DashboardBasic.AddIfSymbolGrows | frontend/src/app/page.tsx:174-179 | the old rows stay a prefix, and the list grows by one exactly when the symbol is non-empty |
| DashboardBasic.AddSkipsPriceAndQuantityChecks | frontend/src/app/page.tsx:174-179 | a stock with zero price and quantity is appended here while the validating add refuses it |
| DashboardBasic.AppendHolding | frontend/src/app/page.tsx:95-97 | the weight is added at the end and the earlier entries are kept |
| DashboardBasic.AppendHoldingDuplicates | frontend/src/app/page.tsx:95-97 | a second weight for the same symbol adds a second entry |

The per-row edits and the delete of `frontend/src/app/page.tsx` are the same operations as those of `page_clean.tsx`: `Portfolio.EditPrice` and `Portfolio.EditQuantity` (page.tsx:212-229) and `Portfolio.RemoveConfirmed` (page.tsx:273-282). The add of `page_new.tsx` is `Portfolio.SubmitNewStock` (page_new.tsx:440-458).

## Where the specification and the code differ

The model follows the code in each case.

- **Divide-by-zero guard.** The specification requires a guard on the percentage change. `backend/server.js:45` divides unguarded. The model yields `None` for a zero previous close, which is what the serialised message carries (null).
- **Failed state.** The specification describes a terminal FAILED client state that is surfaced to observers. The client has no such state. At the limit, `attemptReconnect` only logs and returns (stockWebSocket.ts:85-88).
- **Connection observers.** The specification says open and close signal "connected"/"disconnected" to observers. The client class has no connection observers.
- **Reconnect on error.** The specification says an error schedules a reconnect. `onerror` only rejects the connect promise (stockWebSocket.ts:61-64); only close reconnects.
- **Reconnect after disconnect.** The specification says no reconnect fires after `disconnect`. The socket let go of in `disconnect` keeps its close handler, so a later close still takes a reconnect step (`OnClose`).
- **Overwritten timer id.** A second scheduled timer overwrites `reconnectTimeoutId` without cancelling the first, so `disconnect` cancels only the latest timer.
- **Subscribing while not connected.** The specification describes subscribe as recording a subscription intent. `subscribe` records the symbol in `subscribedSymbols` only when the socket is already OPEN (stockWebSocket.ts:118-120). A symbol subscribed while connecting is therefore not resent on open.

## Left out

- Network I/O is out of the model:
  - the HTTP request to the chart service and its JSON parsing (the oracle stands in for both);
  - the WebSocket transport and server setup;
  - Express routing and middleware, and the listen call.
- Timing is out of the model: the 30-second interval, the 5-second reconnect delay and the 2-second optimise delay. Each handler or event is one atomic step, so the interleaving of an awaited refresh with another SUBSCRIBE or a tick is not modelled.
- Floating point is out of the model: prices, changes, weights and values are reals. NaN and Infinity appear only as `None` for a percentage change with a zero denominator.
- JSON serialisation and parsing are out of the model. Messages are the `Message` datatype, and a message that does not parse, or that has another type, is `Malformed`.
- `GET /api/stock/:symbol` and `/health` are not modelled. They only wrap a single fetch or return a static payload with the clock.
- `QuoteSource.FetchStockData`: a response whose first quote series has an empty close list, together with a falsy `regularMarketPrice`, makes the source build a quote whose price is undefined. The model yields no quote there.
- `QuoteSource.FetchStockData`: a missing `meta.previousClose` is not modelled; the previous close is always a number.
- `QuoteSource.FetchStockData`: a null element in the close series is not modelled, because close values are always numbers. With a falsy `regularMarketPrice` and a null last close the source builds a quote whose price is null, with a change of minus the previous close and minus 100 percent, and caches and broadcasts it. The model cannot represent that input.
- `Strings.ToUpper` upper-cases ASCII letters only; other Unicode case mappings of `toUpperCase` are not modelled.
- `RelayServer.StocksQuery`: a `symbols` query given more than once, which Express parses as an array, is not modelled; the query is one string or absent.
- `RelayServer.Relay.Accept` and `RelayServer.Relay.Tick` enumerate the cache's keys in some order. The source uses the map's insertion order, which the model does not record.
- `StockClient.StockWebSocketClient.OnOpen` resends the subscribed symbols in some order. The source sends them in the set's insertion order (`Array.from`), which the model does not record.
- `RelayServer.Relay.UpdateStockData` answers a symbol listed twice in one refresh with the same upstream response, because the oracle is a function of the symbol. The source sends a second request, which can fail or return a different quote.
- `RelayServer.Relay.UpdateStockData` stamps every quote of one refresh with the same `now`. The source takes the time inside each fetch, after that fetch's await returns, so the quotes of one refresh can carry different times.
- The promise returned by `connect` is not modelled: neither its resolve on open nor its reject on error, and a failed reconnect's logged rejection is not modelled either. The error event has no other effect, so it is not an event method.
- `StockClient.StockWebSocketClient.OnOpen` is stated for the client's current socket. The handlers of an older socket that the client replaced are modelled only for close (`OnClose` with `stale`); an open or a message arriving from such a socket is not modelled.
- What a page's callback does when the client invokes it is not modelled. Invocations are logged by identity.
- The pages' wiring to the client is not modelled. The pages call `onMessage`, `onConnectionChange`, `subscribeToStocks`, `cleanup` and a one-argument `subscribe`, which the client class does not define.
- `Math.random` results of the page optimisations and the efficient-frontier generator are not modelled. Neither are the charts, the rendering, or the symbol and company-name tables; the typeahead takes the symbol table as a parameter.
- Opening and cancelling the delete confirmation (`setConfirmDeleteIndex(index)` and `setConfirmDeleteIndex(null)`) are single assignments and are not separate operations.
- `DashboardClean.OptimizeWeights` requires a non-zero total value when the list is not empty. For a non-empty portfolio whose value is zero the source divides by zero and produces NaN or Infinity weights, which the model does not state. The empty list is modelled: it maps to no weights without dividing.
- `DashboardClean.MergeLive` yields `None` as the percentage change when the row's previous price is zero, where the source stores NaN or Infinity.
- `Portfolio.RemoveConfirmed` requires the confirmed index to be a row of the list. The page only confirms indices of rendered rows. With an out-of-range index the source's splice removes nothing; reading the removed symbol then throws on a non-empty portfolio, and an empty portfolio is filtered without that read.
- `Portfolio.EditPrice` and `Portfolio.EditQuantity` take the parsed input as an option (None for NaN). Parsing the text itself is not modelled.

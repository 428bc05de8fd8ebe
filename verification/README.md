# StockTracker portfolio core in Dafny

This project models the portfolio engine of StockTracker, a small Flask application that keeps a
user's stock lots and trade history, prices them from Yahoo Finance and pushes summaries through
Pushover. The model covers:

- **Trade route** (`routes.py`):
  - Normalises the ticker symbol.
  - Merges a buy into a weighted-average lot, or opens a new lot once the symbol has a quote.
  - Books a sell's realised gain against the average cost, and drops a lot once at most `1e-6` units remain.
  - Appends a record to the history.
  - The wipe route clears both the lots and the history.
  - The portfolio is a class whose methods update its `holdings` and `history` in place.
- **Dashboard figures** (`routes.py`):
  - Win rate, realised gains, the realised cost basis, value, cost, unrealised and daily totals, and every percentage with its guard.
  - The per-holding rows and the chart series.
  - The holdings sorted by value.
- **Quote and news lookups** (`utils.py`):
  - The previous-close fallback chain.
  - A batch price map with one request per list entry, in which the last completed request with data for a symbol wins. The map depends on the completion order only when two requests for one symbol get different replies.
  - A news map, requested for distinct symbols, that does not depend on the completion order.
  - The Pushover guard.
- **Cron endpoint** (`routes.py`): the secret check, the notification windows of each frequency setting, the per-user summary with its top mover, and the count of pushes sent.
- **Per-user file names** (`models.py`): which user names share a file.
- **Older single-user scripts** (`main.py` and `Main.py`):
  - The unguarded buy/sell form and its holdings table.
  - The notification run, which groups lots by symbol, retries a lookup once and sums over the priced groups.
  - The hard-coded run, which uses a bulk download.

Everything is proved for every input. Along the way, the proofs establish the following:

- **Buys:** a run of buys leaves the quantity-weighted mean price as the average cost. Two buys commute.
- **Round trip:** buying into an empty position and selling it all books the proceeds minus the purchase cost.
- **Legacy form versus trade route:**
  - The legacy form's full sell agrees with the trade route's sell.
  - A partial sell agrees unless the remainder is at most `1e-6`.
- **Totals:**
  - The grouped totals of the older scripts equal the lot-by-lot totals.
  - The cron summary equals the dashboard's totals at the same prices.
  - The legacy page asks once per lot. When every lot of a symbol gets the same reply, its totals also equal the dashboard's totals.
- **Zero-price buy:** a buy of a new symbol at price 0 is accepted, and afterwards the dashboard can no longer be computed.

Money and quantities are Dafny `real`s. The following are all parameters:
- the reply each request to Yahoo or Pushover gets;
- the clock and the time stamp of a trade;
- the completion order of the thread pools.

Where the code and the design description of the application differ, the model follows the code:

- **Zero average cost:** a per-holding percentage with an average cost of 0 raises `ZeroDivisionError` (routes.py:115; main.py:252) rather than reading as 0%. The model turns this into an error result of the dashboard and of the holdings page.
- **Price 0:** a buy at price 0 is accepted (routes.py:164), so an average cost of 0 can arise.
- **Empty symbol:** it is not rejected up front.
  - A buy of it fails the quote check, because `fetch_stock_price` returns no data for an empty symbol.
  - A sell of it fails with insufficient quantity.
- **Sell records without a gain:** a SELL record whose gain is `null` makes the win-rate comparison raise (routes.py:76).

## Model

| member | source | states |
|---|---|---|
| Symbols.UpperChar | routes.py:159 | the character has no lower-case ASCII letter left; a lower-case letter moves to its capital, anything else is unchanged |
| Symbols.Upper | routes.py:159 | the same length as the input, and each character is the upper-cased input character |
| Symbols.SkipSpaces | routes.py:159 | the first index at or after `i` that is not white space (or the end), with only white space skipped |
| Symbols.BackSpaces | routes.py:159 | the end of the string once trailing white space is dropped, with only white space dropped |
| Symbols.TrimLeft | routes.py:159 | a suffix of the input that does not start with white space, and everything cut off is white space |
| Symbols.TrimRight | routes.py:159 | a prefix of the input that does not end with white space, and everything cut off is white space |
| Symbols.StripSpec | routes.py:159 | the stripped string is the slice of the input between its first and last non-space characters; everything outside is white space |
| Symbols.NormalizeSymbol | routes.py:159 | the symbol is no longer than the raw field, and is empty exactly when the field is all white space |
| Symbols.NormalizedUpper | routes.py:159 | a normalised symbol contains no lower-case ASCII letter |
| Symbols.NormalizedTrimmed | routes.py:159 | a normalised symbol neither starts nor ends with white space |
| Symbols.NormalizeIdempotent | routes.py:159 | normalising an already normalised symbol changes nothing |
| Filenames.CleanName | models.py:8 | the cleaned name has only ASCII letters and digits and is no longer than the input |
| Filenames.SafeFilename | models.py:6-9 | there is no file name exactly when the user name is empty |
| Filenames.CleanNameAppend | models.py:8 | cleaning distributes over concatenation |
| Filenames.CleanNameFixedIff | models.py:8 | cleaning leaves a name unchanged if and only if it has only letters and digits |
| Filenames.CleanNameIdempotent | models.py:8 | cleaning twice is cleaning once |
| Filenames.CleanNameIgnores | models.py:8 | inserting a character that is not a letter or digit does not change the cleaned name |
| Filenames.JoinPathInjective | models.py:9 | joining relative names onto the data directory gives equal paths if and only if the names are equal |
| Filenames.SameFileIffSameClean | models.py:6-9 | two non-empty user names share a data file if and only if their cleaned names are equal |
| Filenames.PunctuationCollides | models.py:8 | `a.b` and `ab` are given the same file |
| Filenames.HoldingsAndHistoryDiffer | routes.py:169 | a user's holdings file and history file are always different paths |
| Lots.UnrealisedReturn | main.py:24-25 | the return is value minus cost at the current price; for a positive quantity it is positive exactly when the price is above the average cost |
| Lots.FindLot | routes.py:171 | -1 exactly when no lot has the symbol; otherwise the index of the first lot that has it |
| Lots.FindLotAt | routes.py:171 | the first lot carrying the symbol is the one the lookup returns |
| Lots.Merge | routes.py:182-184 | the merged lot keeps its symbol and holds the old quantity plus the bought quantity |
| Lots.MergeCost | routes.py:182-184 | merging conserves cost: new quantity times new average equals old cost plus `q * p` |
| Lots.MergeFresh | routes.py:182-186 | a fresh lot merged with a second fill is the same whichever fill opened it |
| Lots.MergeCommutes | routes.py:182-184 | two merges into one lot give the same lot in either order |
| Lots.MergeBetween | routes.py:182-184 | the new average cost lies between the old average and the buy price |
| Lots.SymbolsOf | routes.py:311 | one symbol per lot, in lot order |
| Lots.Buy | routes.py:180-186 | the list keeps its length when the symbol already has a lot and grows by one otherwise; every lot of another symbol keeps its slot |
| Lots.BuyPosition | routes.py:180-186 | a buy adds `q` to the quantity held and `q * p` to the cost of that symbol's position |
| Lots.BuyPositionIs | routes.py:180-186 | after a buy, the symbol's position is the old lot merged with the fill, or a new lot of the fill |
| Lots.BuyKeepsOthers | routes.py:180-186 | a buy leaves every other symbol's lot unchanged |
| Lots.BuyKeepsWellFormed | routes.py:180-186 | a buy with positive quantity and non-negative price never divides by zero and keeps one positive lot per symbol |
| Lots.Sell | routes.py:191-194 | the list loses one lot exactly when at most `1e-6` remains of the sold position and keeps its length otherwise; the lots before the sold one keep their slots |
| Lots.SellPosition | routes.py:191-194 | after a sell the lot is gone exactly when at most `1e-6` remains; otherwise it holds `q` fewer units at the same average cost; other symbols are untouched |
| Lots.RemovedGone | routes.py:194 | with one lot per symbol, popping a lot leaves no lot of that symbol |
| Lots.RemovedOther | routes.py:194 | popping a lot does not change which lot other symbols find |
| Lots.SellKeepsWellFormed | routes.py:191-194 | an accepted sell keeps one positive lot per symbol |
| Lots.FullSellCloses | routes.py:191-194 | the whole position can be sold, after which no sell of that symbol is accepted |
| Lots.TotalQtyPositive | routes.py:164 | a non-empty run of fills with positive quantities has a positive total quantity |
| Lots.BuyAll | routes.py:180-186 | a run of valid buys keeps one positive lot per symbol |
| Lots.BuyAllPos | routes.py:180-186 | a run of valid buys into an open or absent position leaves an open position |
| Lots.BuyAllPosition | routes.py:180-186 | a run of buys changes the symbol's position exactly as the position-level run says |
| Lots.BuyPosStep | routes.py:182-186 | one buy adds `q` to the quantity and `q * p` to the cost of a position |
| Lots.PosQty | routes.py:182-186 | a run of buys adds the total bought quantity to the position |
| Lots.PosCost | routes.py:182-186 | a run of buys adds the total bought cost to the position |
| Lots.BuyAllTotals | routes.py:180-186 | a run of buys adds its total quantity and its total cost to the symbol's holding |
| Lots.WeightedAverage | routes.py:180-186 | starting from no position, the lot left by a run of buys holds the total quantity at the quantity-weighted mean price |
| Lots.AverageFromTotals | routes.py:183 | a position of `n > 0` units costing `c` has average cost `c / n` |
| Lots.BuyCommutes | routes.py:180-186 | two buys of one symbol give the same lot list in either order |
| Lots.GainsAtTotal | routes.py:192 | against a fixed average cost, the gains of a run of sells are the proceeds minus the cost of the units sold |
| Lots.SellAllGainAtCost | routes.py:191-197 | accepted sells never change the average cost, so every gain in a run of sells is booked against the first cost |
| Lots.SellKeepsCost | routes.py:191-194 | after one of several accepted sells, the rest still fit and the average cost is unchanged |
| Lots.RoundTrip | routes.py:180-197 | buying into an empty position and selling exactly that quantity books the sale proceeds minus the purchase cost |
| Lots.CloseOut | routes.py:191-197 | selling exactly the units held at total cost `c` books the proceeds minus `c` |
| Lots.GainsAtClose | routes.py:192 | selling exactly `n` units bought at average `avg` gains the proceeds minus `avg * n` |
| Ledger.Portfolio.constructor | models.py:12 | a user without files starts with no lots and no history, which satisfies the invariant |
| Ledger.Portfolio.Trade | routes.py:154-203 | the outcome covers invalid numbers, failed verification of a new symbol, a bought lot, a sold lot with its gain, insufficient quantity, no action and a zero merged quantity; each case holds if and only if its condition does; the new lots and history are the specified buy or sell; rejected trades change nothing; the history only grows; the invariant is kept and rules out the zero merge |
| Ledger.Portfolio.Dispatch | routes.py:160-203 | the same as `Trade`, for a symbol already normalised |
| Ledger.Portfolio.BuyShares | routes.py:173-188 | a buy fails verification exactly for a new symbol without a quote; otherwise the lots are the merged or extended list and one BUY record with no gain is appended |
| Ledger.Portfolio.SellShares | routes.py:190-199 | a sell succeeds exactly when a lot holds enough; then the gain is `(p - cost) * q`, the lots are the decremented or popped list, and a SELL record with that gain is appended |
| Ledger.Portfolio.Wipe | routes.py:238-248 | no lots and no history afterwards |
| Quotes.Or | utils.py:21 | the first operand when it is truthy, else the second |
| Quotes.CloseBefore | utils.py:24-25 | the second-to-last close, present exactly when the series has at least two closes |
| Quotes.FetchStockPrice | utils.py:6-30 | an empty symbol gives `(None, None)`; otherwise the symbol is echoed, and any data has a non-zero price |
| Quotes.UtilsPrev | utils.py:21-25 | the lookup raises exactly when neither previous close is truthy and the reply carries an empty quote list |
| Quotes.ExtractPrice | utils.py:15-27 | a returned price is never 0 |
| Quotes.ExtractPriceSpec | utils.py:15-27 | there is data exactly for a 200 reply whose first chart result has a meta with a truthy price and whose previous-close lookup does not raise; the data is that price and that previous close |
| Quotes.PrevFallback | utils.py:21-25 | the previous close is a truthy `previousClose`, else a truthy `chartPreviousClose`, else `close[-2]`, else `chartPreviousClose` as it was |
| Quotes.FetchEncoded | utils.py:6-30 | a minimal reply built from a quote yields that quote again |
| Quotes.FetchBatchPrices | utils.py:32-44 | one request per list entry, gathered in completion order: the map holds exactly the symbols for which some request has data, each with the data of its last such completion |
| Quotes.GatheredKeys | utils.py:36-41 | a symbol has an entry exactly when some completed request for it has data |
| Quotes.GatheredLast | utils.py:36-41 | a symbol's entry is the data of a completed request for it, and no later completion for it has data |
| Quotes.GatheredUniform | utils.py:32-44 | when every request for a symbol gets that symbol's reply, the map is the same for every completion order |
| Quotes.LastCompletionWins | utils.py:36-41 | of two requests for one symbol that both have data, the map holds the data of whichever completes last |
| Quotes.BatchPrices | utils.py:32-44 | the batch map has only requested, non-empty symbols, each with a non-zero price |
| Quotes.CleanNews | utils.py:56-65 | one cleaned item per raw item, in order |
| Quotes.GetSingleNews | utils.py:50-69 | the symbol paired with its cleaned news for a 200 reply, and no news otherwise |
| Quotes.FetchNewsGrouped | utils.py:46-79 | whatever the completion order, the map holds exactly the symbols with a non-empty news list |
| Quotes.NewsEntries | utils.py:57-66 | a symbol's news entry holds one cleaned item per raw entry of a 200 reply |
| Quotes.SendPushover | utils.py:81-91 | a missing or empty key is never sent; otherwise the push counts as sent exactly when the POST does not raise |
| Valuation.WinsAtMostSells | routes.py:74-76 | there are never more wins than sells |
| Valuation.WinRate | routes.py:74-77 | with at least one sell, the rate times the number of sells is 100 times the number of wins |
| Valuation.WinRateBounds | routes.py:74-77 | the win rate lies between 0 and 100; it is 0 without sells and 100 when every sell gained |
| Valuation.RealizedFromSells | routes.py:79 | when only sells carry gains, the realised total is the sum of the sells' gains |
| Valuation.Total | routes.py:96-126 | the sum of every lot's contribution to a metric, in list order; characterised by `UnrealisedIsValueMinusCost`, `TotalPricedOnly` and `NothingPricedTotalsZero` |
| Valuation.UnrealisedIsValueMinusCost | routes.py:104-119 | the unrealised total is the value total minus the cost total |
| Valuation.Priced | routes.py:96-99 | only lots whose symbol has a price are kept |
| Valuation.PricedKeepsOrder | routes.py:96-99 | every priced lot is kept, in list order: one entry per priced lot, the one at `i` landing after the priced lots before it |
| Valuation.TotalPricedOnly | routes.py:96-126 | every total over all the lots equals the total over the priced lots |
| Valuation.NothingPricedTotalsZero | routes.py:96-126 | with no price for any lot, every total is 0 |
| Valuation.Pct | routes.py:131-137 | 0 unless the denominator is positive; otherwise the result times the denominator is 100 times the numerator |
| Valuation.RowOf | routes.py:97-125 | the row keeps its lot; an unpriced lot gets no price, value, unrealised return or percentage; a priced lot gets its quote, an unrealised field equal to `(current - priceBought) * qty`, a value equal to that unrealised return plus the cost, and a percentage change from the average cost |
| Valuation.Rows | routes.py:96-127 | one processed row per holding, in list order, each the row of the lot at that position |
| Valuation.InsertPerm | routes.py:147 | inserting a row adds exactly that row |
| Valuation.InsertAtMost | routes.py:147 | insertion keeps every row at most a bound |
| Valuation.ConsSorted | routes.py:147 | a row worth at least every row of a sorted list can go in front |
| Valuation.InsertSorted | routes.py:147 | insertion keeps the rows sorted by value, highest first |
| Valuation.SortByValue | routes.py:147 | the rows are sorted by value, highest first, a missing value counting as 0, and are a permutation of the input |
| Valuation.InsertStable | routes.py:147 | inserting into a sorted list puts the row after every row of the same value already there |
| Valuation.SortStable | routes.py:147 | the sort is stable: the rows of any one value come out in the order they went in |
| Valuation.VisitLot | routes.py:96-127 | one holding raises exactly when it is priced and cost 0; otherwise it adds its part to each sum, its row, and its chart label and value when priced |
| Valuation.ProcessHoldings | routes.py:96-127 | the loop fails exactly when a priced lot cost 0; otherwise it yields the specified sums, rows and chart series |
| Valuation.Dashboard | routes.py:68-152 | the dashboard fails exactly when a sell lacks its gain or a priced lot cost 0; otherwise the totals are the specified sums, and the holdings are exactly the stably sorted rows, so a sorted permutation of them |
| Valuation.ZeroPriceBuyBreaksDashboard | routes.py:164 | a buy of a new symbol at price 0 is accepted, and once that symbol is priced the dashboard fails |
| Movers.FindKey | routes.py:324 | -1 exactly when the key is absent; otherwise the first position of the key |
| Movers.PutKeys | routes.py:324 | a dict assignment keeps keys distinct: an existing key keeps its place, and a new one goes last |
| Movers.PutGet | routes.py:324 | after `d[k] = v`, `k` maps to `v` and every other key keeps its value |
| Movers.PutOther | routes.py:324 | assigning one key leaves the lookup of another unchanged |
| Movers.KeyAt | routes.py:324 | the first entry with a key is the one the lookup finds |
| Movers.Abs | routes.py:326 | the magnitude is non-negative and equals the value or its negation |
| Movers.TopIndex | routes.py:326 | the chosen change has the largest magnitude, and it is the first entry that does |
| Movers.TopMover | main.py:137-141 | none exactly for an empty dict; otherwise an entry whose change has the largest magnitude |
| Schedule.IsOpen | routes.py:290 | a valid clock is in market hours exactly from 9:30 through 15:59 and at 16:00:00 exactly |
| Schedule.IsTimeMatch | routes.py:285-288 | for a valid clock and a start minute of at most 30, a match exactly in the half hour from `th:tm`, within hour `th` |
| Schedule.ShouldSend | routes.py:296-305 | every notification, whatever the setting, falls within market hours |
| Schedule.ParseFreq | routes.py:295-296 | a missing setting reads as none; exactly the unknown strings are other |
| Schedule.MinutesInHour | routes.py:285-288 | minutes since midnight of a valid clock fall in a range of whole hours exactly when its hour does |
| Schedule.OpenWindow | routes.py:285-299 | `open` is notified from 9:30 to 9:59 |
| Schedule.OpenCloseWindow | routes.py:285-301 | `open_close` is notified from 9:30 to 9:59 and from 15:30 to 15:59, a superset of `open` |
| Schedule.HourlyWindow | routes.py:290-303 | `hourly` is notified in the first half of hours 10 to 15, and at exactly 16:00:00 |
| Schedule.TwoHoursWindow | routes.py:290-305 | `2hours` is notified in the first half of 11, 13 and 15 o'clock, a subset of `hourly` |
| Schedule.NeverSends | routes.py:295-307 | `none` and unknown settings are never notified |
| Cron.DailyMoves | routes.py:315-324 | the keys of `daily_moves` are distinct |
| Cron.DailyMovesGet | routes.py:315-324 | the keys of `daily_moves` are distinct, and a symbol maps to its own daily change exactly when some lot holds it and its quote has a truthy previous close |
| Cron.SummaryStep | routes.py:314-324 | one more lot adds its value and unrealised return, if priced, and puts its daily change when the previous close is truthy |
| Cron.Tally | routes.py:314-324 | the loop body adds the lot's value and unrealised return, if priced, and puts its daily change when the previous close is truthy |
| Cron.Summarize | routes.py:314-326 | the value and profit are the dashboard's value and unrealised totals, and the mover is the top of `daily_moves` |
| Cron.SentAtMostNotices | routes.py:307-327 | the sent count never exceeds the number of due users, and is 0 when nobody has a Pushover key |
| Cron.Trigger | routes.py:277-328 | unauthorised exactly when the secret differs; otherwise the count of successful pushes and the summary of every due user |
| Grouping.SymbolsInOrder | main.py:78 | the keys are distinct |
| Grouping.KeysAreSymbols | main.py:61-65 | a symbol is a key exactly when some lot carries it |
| Grouping.SymbolsInOrderSpec | main.py:61-78 | of any two keys, the earlier one's first lot comes before the later one's first lot |
| Grouping.NotKeyNoLots | main.py:62-65 | a symbol that is not a key has no lots |
| Grouping.GroupsLast | main.py:62-65 | one more lot is appended to its symbol's list, which is created when the symbol is new |
| Grouping.StockGroups.constructor | main.py:61 | no keys and no lists |
| Grouping.StockGroups.AddStock | main.py:62-65 | a new symbol becomes the last key, and the lot is appended to its symbol's list; distinct keys are kept |
| Grouping.Group | main.py:75-76 | the keys are the symbols in order of first appearance, and each list holds that symbol's lots in order |
| Grouping.GroupStep | main.py:62-65 | the grouping of one more lot is what `AddStock` produces from the grouping before it |
| Grouping.PricedKeysZero | main.py:127-143 | no symbol is counted as having data exactly when no key has a price |
| Grouping.GroupTotals | main.py:125-135 | the nested loops compute the grouped unrealised and value sums and the number of priced keys |
| Grouping.GroupSumOther | main.py:128-131 | the list of a symbol that is not a key does not affect the grouped sum |
| Grouping.GroupSumAppend | main.py:128-135 | appending a lot to a priced key's list adds that lot's part to the grouped sum |
| Grouping.GroupedIsFlat | main.py:125-135 | summing group by group over the priced symbols equals summing lot by lot |
| Grouping.GroupedStep | main.py:125-135 | one more lot adds its own part to the grouped sum |
| Legacy.RemoveSymbol | main.py:211 | no lot of the symbol is left, and the list does not grow |
| Legacy.RemoveSymbolKeeps | main.py:211 | every lot of another symbol is kept, in list order: one entry per such lot, the one at `i` landing after the other lots before it |
| Legacy.RemoveAbsent | main.py:211 | a list without the symbol is unchanged |
| Legacy.Decrement | main.py:214 | the first lot of the symbol holds `q` fewer units, and every other lot is unchanged in its slot |
| Legacy.Tracker.constructor | main.py:186 | the page starts from the loaded lots |
| Legacy.Tracker.ManageTrade | main.py:188-220 | logged out or another action is ignored; a missing field or an unparsable number raises; a buy merges or appends, raising only on a zero merged quantity; a sell is not-owned, too-few, sell-all (every lot of the symbol dropped) or sell-part (decrement), each exactly under its condition; nothing else changes the lots |
| Legacy.FullSellAgrees | main.py:210-211 | with one lot per symbol, selling the whole position leaves the same lots as the trade route's sell |
| Legacy.RemoveAround | main.py:211 | when only the lot at `i` has the symbol, removing the symbol drops exactly that lot |
| Legacy.PartialSellAgrees | main.py:213-214 | a sell leaving more than `1e-6` agrees with the trade route's sell |
| Legacy.DustSellDiffers | main.py:213-214 | a sell leaving a positive remainder of at most `1e-6` keeps the lot here, while the trade route drops it |
| Legacy.PagePrice | main.py:222-236 | a price only from the meta of the first chart result, and then exactly its `regularMarketPrice` |
| Legacy.PageRows | main.py:243-268 | one row per lot, each computed at that lot's price, if any |
| Legacy.VisitLot | main.py:243-256 | one lot raises exactly when it is priced and cost 0; otherwise the table is extended by its row and its part of each total |
| Legacy.PageStep | main.py:243-256 | the table over one more lot is the table extended by that lot |
| Legacy.LotPrices | main.py:243-244 | one price per lot, from that lot's own reply |
| Legacy.PageAtMap | main.py:243-270 | when each lot is priced at its symbol's entry in a price map, the table is the one over that map: its rows are `PageRows` and its totals are the dashboard's unrealised, value and cost totals |
| Legacy.PageUniform | main.py:243-270 | when every lot of a symbol gets the same reply, a zero-cost priced lot exists exactly when it does for the page's price map, and the table is the one over that map |
| Legacy.LotsPricedApart | main.py:243-244 | two lots of one symbol are shown at different prices when their replies differ |
| Legacy.HoldingsPage | main.py:238-270 | lot `i` is priced by its own request; the page fails exactly when a priced lot cost 0; otherwise the rows and totals are the table at those prices, with the guarded percentage |
| TrackerRun.TrackerQuote | main.py:82-110 | a quote is returned only with a non-zero price and a non-zero previous close |
| TrackerRun.TrackerPrev | main.py:96-103 | the lookup raises exactly when neither previous close is truthy and the reply carries an empty quote list, as utils.py's does |
| TrackerRun.TrackerAgrees | main.py:82-110 | main.py's parser finds a price only where utils.py's does, and the same one; when utils.py has a truthy previous close, both return the same pair |
| TrackerRun.OpenFallbackDiffers | main.py:98-103 | on a reply whose only previous price is the day's first open, main.py uses it and utils.py finds none |
| TrackerRun.FetchWithRetry | main.py:113-123 | at most two attempts, stopping at the first with a quote; no quote only after two failed attempts |
| TrackerRun.PricedHasChange | main.py:117-122 | a symbol has a daily change exactly when it has a price, and only looked-up symbols have one |
| TrackerRun.RetryQuoteTruthy | main.py:105-106 | a retried quote always has a non-zero previous close |
| TrackerRun.PriceTable | main.py:112-123 | the price map and daily changes are those of the retried lookups, key by key in order |
| TrackerRun.RunStockTracker | main.py:56-146 | no holdings exactly for an empty file; no data exactly when no symbol is priced, listing the grouped symbols; otherwise the totals are the lot-by-lot sums over the priced symbols, and the mover is the top daily change |
| TrackerRun.UnavailableIffNoPrice | main.py:143-144 | no symbol counted with data exactly when the price map is empty |
| TrackerRun.BarTable | Main.py:54-62 | each symbol with a row gets its close as its price, and a change from its open when the open is not 0 |
| TrackerRun.RunMain | Main.py:28-76 | the unrealised total over the hard-coded lots is the lot-by-lot sum at the closes, and the mover is the top change |

## Left out

- Floating point: the model computes with exact reals. It does not capture the following:
  - rounding, or the `round(val, 2)` of the chart values;
  - NaN and infinity, which `float()` accepts and which pass the `qty <= 0 or price < 0` check.
- Symbols.UpperChar: upper-cases only the ASCII letters, as `Symbols.Upper` does below.
- Symbols.Upper: upper-cases only the ASCII letters. Python's `str.upper` also maps other letters, some of them to several characters; Unicode case tables are not part of this model.
- TrackerRun.BarTable: when the open is 0, Main.py's pandas division yields an infinite or NaN change. The model records no change for that symbol instead.
- Quotes.GetSingleNews: a `providerPublishTime` that is present but `null` makes the source's date conversion raise, which drops the symbol's news. The model reads such a time as missing, that is 0. Converting the timestamp to a `%Y-%m-%d` date is not modelled either.
- Lots.SellAllGainAtCost: the total gain of a run of sells is stated in two steps:
  - this lemma: every sell books its gain against the unchanged average cost;
  - `Lots.GainsAtTotal`: those gains are the proceeds minus that cost times the quantity sold.

  `Lots.RoundTrip` composes both for a position that is closed out.
- Cron.Trigger: within one run, every request for a symbol gets the same reply, and each due user's batch lookup completes in list order. `Quotes.GatheredUniform` shows that, with one reply per symbol, every completion order gives this map. Two requests for one symbol that get different replies are modelled by `Quotes.FetchBatchPrices`, but not in the cron run.
- Quotes.FetchNewsGrouped: one reply per symbol. Its only caller passes distinct symbols (routes.py:89 and 149), so each symbol is requested once.
- HTTP requests, JSON decoding, thread pools and `time.sleep`: each reply is a parameter, as is each completion order. The one-second pause before a retry is not modelled.
- Persistence: reading and writing users.json and the per-user holdings and history files is not modelled.
  - A missing file reads as empty; this is the starting state of the constructors.
  - Concurrent trades racing on the same file are not modelled.
- The time stamp written into each history record is a parameter.
- Authentication, sessions, rate limits, registration, settings, account deletion, the test notification and the CSV export (routes.py:17-66, 205-236, 250-275) are web glue and are not part of this model. The login cookie of main.py is a boolean parameter.
- Notification texts and HTML pages: the model computes the figures they format. The message strings, the number formatting and the Pushover POST of main.py and Main.py are not modelled.
- The dashboard's news lookup is modelled on its own, as `Quotes.FetchNewsGrouped`. The price map passed to `Valuation.Dashboard` is the batch lookup's result for the user's symbols.
- `load_holdings` and `save_holdings` of main.py, and the `dateBought` field of a lot, are not used by any computation and are not modelled.

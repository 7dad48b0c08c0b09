# Stock market dashboard — Dafny model

A model of the logic inside the dashboard's single React component
(`src/App.js`): the series pipeline that turns the market-data feed's daily
time series into a `{date, price, volume}` series for a date range, the
tracked-stock list with its guarded add and its filtering remove, the chart
assembler that lays out two datasets per stock, and the arithmetic of the
summary table's rows.

Files and modules:

- `wrappers.dfy` — `Wrappers`: `Option` and `Result`.
- `series.dfy` — `Series`: the feed and record types, the filter / map /
  reverse pipeline (`BuildSeries`) and the request outcome (`FetchSeries`).
- `stocks.dfy` — `Stocks`: the tracked list as values: the add guard, the
  append after a fetch, the remove filter, and what they promise.
- `chart.dfy` — `Chart`: `BuildChart`, the labels and the datasets.
- `table.dfy` — `Table`: the row of the summary table.
- `app.dfy` — `App`: class `Dashboard`, the component's state (`symbol`,
  `startDate`, `endDate`, `stocks`, `chartData`) with the handlers as
  methods that `modify` it.

Inputs taken as parameters: the network response (request failed, a body
without the daily series, or the feed as a sequence of already-parsed
`(date, close, volume)` entries in the order the feed object lists them), and
the initial date range (the source derives it from the clock). Dates are
integers (calendar days), prices and hues are exact `real`s.

Three facts about the source worth stating:

- The change percentage is relative to the previous day's price: a move
  from 100 to 110 gives 10% (`Table.TwoDayExample`).
- `parseFloat` and `parseInt` return NaN rather than throw, so the fetch
  failures modelled are a failed request and a missing time-series field.
- The series lists the in-range entries in reverse feed order, not sorted,
  so it is ascending whenever the feed lists its days newest first
  (`Series.SeriesAscending`).

## Model

| member | source | states |
|---|---|---|
| `Series.SelectInRange` | src/App.js:39 | the filter keeps at most the feed's entries; which ones and in what order is stated by `SelectInRangeMembership` and `SelectInRangeAppend` |
| `Series.BuildSeries` | src/App.js:38-45 | filter, map to `{date, price, volume}`, reverse: one record per in-range entry; the records themselves are stated by `SeriesAt`, `SeriesKeepsExactlyInRange`, `SeriesWithinRange`, `SeriesEmptyIff` and `SeriesAscending` |
| `Series.SelectInRangeMembership` | src/App.js:38-39 | an entry survives the filter exactly when it is in the feed and its date lies in [startDate, endDate], both ends included |
| `Series.SelectInRangeAppend` | src/App.js:38-39 | the filter works entry by entry and keeps feed order: filtering a concatenation concatenates the filtered parts |
| `Series.Reverse` | src/App.js:45 | the reversed sequence has the same length and element k is element n-1-k of the input |
| `Series.SeriesAt` | src/App.js:38-45 | the series has one record per kept entry, record k being the k-th kept entry counted from the end, converted to `{date, price, volume}` |
| `Series.SeriesKeepsExactlyInRange` | src/App.js:38-44 | a record is in the series iff some in-range feed entry produced it, with that entry's date, close and volume |
| `Series.SeriesWithinRange` | src/App.js:39 | every record's date lies in [startDate, endDate] |
| `Series.SeriesEmptyIff` | src/App.js:38-45 | the series is empty iff no feed date is in range; an inverted range gives an empty series, not an error |
| `Series.SelectKeepsDescending` | src/App.js:39 | filtering a strictly newest-first feed leaves it strictly newest-first |
| `Series.SeriesAscending` | src/App.js:38-45 | a strictly newest-first feed yields a strictly oldest-first series |
| `Series.FetchSeries` | src/App.js:30-49 | a failed request is a network error, a body without the daily series (where `Object.entries` throws) is a malformed-response error, and only a body with the series yields the built series |
| `Stocks.AfterFetch` | src/App.js:47-49 | a successful fetch appends exactly `{symbol, data}` after the unchanged list, a failed one leaves the list as it was |
| `Stocks.AfterAdd` | src/App.js:78-84 | a rejected add (empty or already tracked symbol) and a failed fetch leave the list unchanged; an accepted add whose fetch succeeds appends exactly one `{symbol, data}` at the end and keeps every earlier entry |
| `Stocks.AddTracksSymbol` | src/App.js:47 | after an accepted add with a successful fetch the symbol is tracked |
| `Stocks.AddKeepsSymbolsUnique` | src/App.js:80 | adds run one at a time keep every tracked symbol unique |
| `Stocks.RemoveSymbol` | src/App.js:87 | the filter never lengthens the list; what it keeps and in what order is stated by `RemoveSymbolMembership`, `RemoveSymbolAppend`, `RemoveAbsentIsNoOp` and `RemoveTrackedAt` |
| `Stocks.RemoveSymbolMembership` | src/App.js:87 | remove keeps exactly the entries whose symbol differs from the removed one |
| `Stocks.RemoveUntracks` | src/App.js:87 | after remove the symbol is not tracked |
| `Stocks.RemoveAbsentIsNoOp` | src/App.js:87 | removing a symbol that is not tracked leaves the list unchanged |
| `Stocks.RemoveSymbolAppend` | src/App.js:87 | remove keeps the relative order: removing from a concatenation concatenates the results |
| `Stocks.RemoveSingle` | src/App.js:87 | on a one-entry list remove drops the entry iff its symbol matches |
| `Stocks.RemoveTrackedAt` | src/App.js:87 | with unique symbols, removing the symbol at position i gives the list with exactly entry i deleted |
| `Stocks.RemoveKeepsSymbolsUnique` | src/App.js:87 | remove keeps symbols unique |
| `Stocks.AddThenRemoveRestores` | src/App.js:80-87 | adding an untracked non-empty symbol and then removing it restores the previous list, whether or not the fetch succeeded |
| `Chart.BuildChart` | src/App.js:54-74 | 2N datasets for N stocks and no labels when nothing is tracked; the full layout is stated by `ChartLayout` and the colours by `HueDependsOnlyOnIndex` |
| `Chart.DatasetsFrom` | src/App.js:56-73 | two datasets per tracked stock |
| `Chart.DatasetsFromAt` | src/App.js:56-73 | dataset 2i is the price dataset and dataset 2i+1 the volume dataset of stock i, with index first+i |
| `Chart.ChartLayout` | src/App.js:54-74 | labels are the dates of the first stock's series (empty when nothing is tracked); 2N datasets; dataset 2i is "`<symbol> Price`" on axis `y` with stock i's prices, dataset 2i+1 is "`<symbol> Volume`" on axis `y1` with its volumes, one value per record |
| `Chart.EmptyChart` | src/App.js:55-56 | no tracked stock gives no labels and no datasets |
| `Chart.HueDependsOnlyOnIndex` | src/App.js:60-69 | the hues of stock i's datasets are i*137.5 and i*137.5+60 in every list that has a stock at i, so they depend on the index alone |
| `Table.PercentOf` | src/App.js:233 | with a non-zero previous price the percentage p satisfies p*previous = change*100; with a zero one it is +Infinity, -Infinity or NaN by the sign of the change |
| `Table.RowOf` | src/App.js:230-238 | for at least two records: latest price and volume are the last record's, previous price plus change is the latest price, the percentage is change / previous price * 100 by JavaScript's division (`PercentOf`), the row is positive iff the price did not fall, and with a positive previous price the percentage has the change's sign |
| `Table.SafeRow` | src/App.js:229-246 | every stock gets a row with its symbol; latest price and volume are present iff there is a record and are the last record's; the change, percentage and sign are present iff there are two records and are then the source's row's |
| `Table.TableRows` | src/App.js:229-250 | one row per tracked stock in list order with that stock's symbol (so its Remove action is always shown), defined for every list; latest price and volume are shown iff the stock has a record and are its last record's; the movement is shown iff the stock has two records and then equals the source's |
| `Table.TwoDayExample` | src/App.js:230-233 | 100 then 110 gives latest price 110, change +10 and change percent +10 |
| `Table.EmptySeriesReachesTable` | src/App.js:38-47 | an add whose feed has no day in range tracks a stock with an empty series, for which the source's row is undefined and the corrected table shows only the symbol |
| `App.UpperCase` | src/App.js:201 | same length; each lower-case ASCII letter becomes its upper-case letter, every other character is kept |
| `App.Dashboard.constructor` | src/App.js:15-20 | empty symbol, empty list and empty chart, with the given date range |
| `App.Dashboard.EnterSymbol` | src/App.js:201 | the symbol becomes the upper-cased input |
| `App.Dashboard.SelectStartDate` | src/App.js:206 | the start date becomes the picked date |
| `App.Dashboard.SelectEndDate` | src/App.js:210 | the end date becomes the picked date |
| `App.Dashboard.UpdateChartData` | src/App.js:53-76 | the chart data becomes the chart built from the current list |
| `App.Dashboard.FetchStockData` | src/App.js:28-51 | the list becomes the list after the fetch for the current symbol and range: one entry appended on success, unchanged on failure |
| `App.Dashboard.HandleAddStock` | src/App.js:78-84 | a fetch is issued iff the symbol is non-empty and untracked; the list becomes `AfterAdd` of the old list; the input is cleared iff a fetch was issued; symbols stay unique and the chart stays in step with the list |
| `App.Dashboard.HandleRemoveStock` | src/App.js:86-88 | the list becomes the old list without the symbol's entries; symbols stay unique and the chart stays in step |
| `App.AddThenRemoveSession` | src/App.js:78-88 | typing an untracked symbol, adding it and removing it leaves the list and the chart as they were |

## Findings

| source | as written | input that shows it | evidently intended | confidence | as-written member | corrected member |
|---|---|---|---|---|---|---|
| src/App.js:230-233 | each table row reads `stock.data[length-1]` and `stock.data[length-2]` unguarded, while the add handler appends any series, including one with fewer than two records | add "AAPL" with a date range holding no trading day of the feed: the stock is tracked with an empty series and reading `.price` of `undefined` throws during rendering | a stock with fewer than two records still shows its row, with symbol and Remove action, and with latest price and volume when it has one record, but without change or percentage | high (not executed) | `Table.EmptySeriesReachesTable` | `Table.TableRows` |

## Left out

- The HTTP request, the API key and URL, and the response format beyond a sequence of dated close/volume entries: network I/O, replaced by the `HttpResponse` parameter.
- `parseFloat`, `parseInt` and `new Date(...)`: runtime string parsing; dates and numbers arrive parsed, so a non-numeric field (NaN in the source) is not represented.
- A feed entry whose value is null, on which reading `values['4. close']` throws and the add fails: feed entries arrive parsed, so this failure is not represented.
- Date comparison is on whole days as integers; the source compares the feed's midnight-UTC dates with picker values that carry a time of day.
- Object.entries order is taken to be the order of the feed sequence; duplicate keys in the feed's JSON are not represented.
- The `console.error` logging of a failed fetch: diagnostic output only; the model keeps just its effect, a list left unchanged.
- Floating point: prices, percentages and hues are exact reals; signed zero is not distinguished.
- `toFixed`, `toLocaleString` and the `hsl(...)`/`hsla(...)` strings: presentation formatting; the model keeps the hue number, shared by border and fill colour.
- `App.UpperCase`: upper-cases ASCII letters only, not the full Unicode case mapping of `toUpperCase`.
- The chart options object, its animation callbacks, the theme flag and its effect on the page: presentation passed to the charting library.
- React's hooks, re-rendering and JSX markup; `useEffect`'s refresh of the chart is modelled by the handlers calling `UpdateChartData` after changing the list.
- Interleaving of several in-flight adds: each add is one atomic step, so the duplicate symbols that overlapping adds can produce in the source are not modelled.

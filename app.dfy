/**
 * The dashboard component's state and its handlers. Each handler runs to
 * completion before the next one starts; the network response a fetch
 * receives is passed in.
 */
module App {
  import opened Series
  import opened Stocks
  import opened Chart

  /** Upper-casing of the symbol input, for ASCII letters. */
  function UpperCase(text: string): (r: string)
    ensures |r| == |text|
    ensures forall k :: 0 <= k < |text| && 'a' <= text[k] <= 'z' ==> r[k] as int == text[k] as int - 32
    ensures forall k :: 0 <= k < |text| && !('a' <= text[k] <= 'z') ==> r[k] == text[k]
  {
    seq(|text|, k requires 0 <= k < |text| =>
      if 'a' <= text[k] <= 'z' then (text[k] as int - 32) as char else text[k])
  }

  class Dashboard {
    /** The text of the symbol input. */
    var symbol: string
    var startDate: int
    var endDate: int
    var stocks: seq<TrackedStock>
    /** The chart data last assembled from `stocks`. */
    var chartData: ChartData

    /** Symbols are unique, and the chart is never out of date with the list. */
    ghost predicate Valid()
      reads this
    {
      UniqueSymbols(stocks) && chartData == BuildChart(stocks)
    }

    /** The initial state, with the date range the date pickers start on. */
    constructor (startDate: int, endDate: int)
      ensures Valid()
      ensures symbol == "" && stocks == [] && chartData == ChartData([], [])
      ensures this.startDate == startDate && this.endDate == endDate
    {
      symbol := "";
      this.startDate := startDate;
      this.endDate := endDate;
      stocks := [];
      chartData := ChartData([], []);
    }

    /** The input's change handler: the symbol is kept upper-cased. */
    method EnterSymbol(text: string)
      modifies this`symbol
      ensures symbol == UpperCase(text)
    {
      symbol := UpperCase(text);
    }

    method SelectStartDate(date: int)
      modifies this`startDate
      ensures startDate == date
    {
      startDate := date;
    }

    method SelectEndDate(date: int)
      modifies this`endDate
      ensures endDate == date
    {
      endDate := date;
    }

    /** Recomputes the chart from the list. */
    method UpdateChartData()
      modifies this`chartData
      ensures chartData == BuildChart(stocks)
    {
      chartData := BuildChart(stocks);
    }

    /** Builds the series for the current symbol and range from the response
        and appends it; on a failed request or a malformed body the list is
        left as it was. */
    method FetchStockData(response: HttpResponse)
      modifies this`stocks
      ensures stocks == AfterFetch(old(stocks), symbol, FetchSeries(response, startDate, endDate))
    {
      var fetched := FetchSeries(response, startDate, endDate);
      if fetched.Success? {
        stocks := stocks + [TrackedStock(symbol, fetched.value)];
      }
    }

    /** The add handler: with a non-empty symbol that is not yet tracked it
        fetches (reporting that it did), clears the input and refreshes the
        chart; otherwise it does nothing at all. */
    method HandleAddStock(response: HttpResponse) returns (fetched: bool)
      requires Valid()
      modifies this
      ensures Valid()
      ensures fetched == AddAccepted(old(stocks), old(symbol))
      ensures stocks == AfterAdd(old(stocks), old(symbol), response, startDate, endDate)
      ensures symbol == if fetched then "" else old(symbol)
      ensures startDate == old(startDate) && endDate == old(endDate)
    {
      fetched := symbol != "" && !Tracks(stocks, symbol);
      if fetched {
        AddKeepsSymbolsUnique(stocks, symbol, response, startDate, endDate);
        FetchStockData(response);
        symbol := "";
        UpdateChartData();
      }
    }

    /** The remove handler: drops every entry with the symbol, keeps the rest
        in order, and refreshes the chart. */
    method HandleRemoveStock(symbolToRemove: string)
      requires Valid()
      modifies this
      ensures Valid()
      ensures stocks == RemoveSymbol(old(stocks), symbolToRemove)
      ensures symbol == old(symbol) && startDate == old(startDate) && endDate == old(endDate)
    {
      RemoveKeepsSymbolsUnique(stocks, symbolToRemove);
      stocks := RemoveSymbol(stocks, symbolToRemove);
      UpdateChartData();
    }
  }

  /** A session as the handlers' contracts describe it: typing a symbol that
      is not tracked, adding it, and removing its row again leaves the tracked list and the chart as they were. */
  method AddThenRemoveSession(d: Dashboard, typed: string, response: HttpResponse)
    requires d.Valid() && AddAccepted(d.stocks, UpperCase(typed))
    modifies d
    ensures d.Valid() && d.stocks == old(d.stocks) && d.chartData == old(d.chartData)
  {
    d.EnterSymbol(typed);
    var fetched := d.HandleAddStock(response);
    AddThenRemoveRestores(old(d.stocks), UpperCase(typed), response, d.startDate, d.endDate);
    d.HandleRemoveStock(UpperCase(typed));
  }
}

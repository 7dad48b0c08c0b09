/**
 * The summary table: one row per tracked stock with its latest price, the
 * change from the previous day, that change as a percentage, and the latest
 * volume. The source reads the last and second-to-last records without
 * checking that they exist.
 */
module Table {
  import opened Wrappers
  import opened Series
  import opened Stocks

  /** A number as JavaScript's division produces it: finite, or, for a
      division by zero, an infinity or NaN. */
  datatype Percent = Finite(value: real) | PositiveInfinity | NegativeInfinity | NotANumber

  datatype Row = Row(symbol: string, latestPrice: real, change: real, changePercent: Percent, positive: bool, volume: int)

  /** The day-over-day part of a row: the change, its percentage, and whether
      the row is shown as positive. */
  datatype Movement = Movement(change: real, changePercent: Percent, positive: bool)

  /** A row that every tracked stock gets, with its Remove action: the latest
      price and volume when there is a record, the movement when there are two. */
  datatype TableRow = TableRow(symbol: string, latestPrice: Option<real>, volume: Option<int>, movement: Option<Movement>)

  /** `change / previous * 100` with JavaScript's rules for a zero divisor. */
  function PercentOf(change: real, previous: real): (p: Percent)
    ensures previous != 0.0 ==> p.Finite? && p.value * previous == change * 100.0
    ensures previous == 0.0 ==> (p == PositiveInfinity <==> change > 0.0)
    ensures previous == 0.0 ==> (p == NegativeInfinity <==> change < 0.0)
    ensures p == NotANumber <==> previous == 0.0 && change == 0.0
  {
    if previous != 0.0 then Finite(change / previous * 100.0)
    else if change > 0.0 then PositiveInfinity
    else if change < 0.0 then NegativeInfinity
    else NotANumber
  }

  /** The row as the source computes it; defined only when the stock has at
      least two records (otherwise the source reads a field of `undefined`). */
  function RowOf(stock: TrackedStock): (r: Row)
    requires |stock.data| >= 2
    ensures var latest, previous := stock.data[|stock.data| - 1], stock.data[|stock.data| - 2];
      && r.symbol == stock.symbol
      && r.latestPrice == latest.price
      && r.volume == latest.volume
      && previous.price + r.change == latest.price
      && r.changePercent == PercentOf(r.change, previous.price)
      && (r.positive <==> latest.price >= previous.price)
      && (previous.price > 0.0 ==> r.changePercent.Finite? && (r.positive <==> r.changePercent.value >= 0.0))
  {
    var latest, previous := stock.data[|stock.data| - 1], stock.data[|stock.data| - 2];
    var change := latest.price - previous.price;
    var percent := PercentOf(change, previous.price);
    assert previous.price > 0.0 ==> (percent.value >= 0.0 <==> change >= 0.0) by {
      if previous.price > 0.0 {
        assert percent.value * previous.price == change * 100.0;
        if percent.value < 0.0 {
          assert percent.value * previous.price < 0.0;
        } else {
          assert percent.value * previous.price >= 0.0;
        }
      }
    }
    Row(stock.symbol, latest.price, change, percent, change >= 0.0, latest.volume)
  }

  /** The row of one stock, computable for every series: the latest price
      and volume need one record, the change and its percentage two, and
      where the source can compute its row this row shows the same values. */
  function SafeRow(stock: TrackedStock): (r: TableRow)
    ensures r.symbol == stock.symbol
    ensures r.latestPrice.Some? <==> |stock.data| >= 1
    ensures r.volume.Some? <==> |stock.data| >= 1
    ensures |stock.data| >= 1 ==>
      r.latestPrice == Some(stock.data[|stock.data| - 1].price) && r.volume == Some(stock.data[|stock.data| - 1].volume)
    ensures r.movement.Some? <==> |stock.data| >= 2
    ensures |stock.data| >= 2 ==>
      var row := RowOf(stock);
      && r.latestPrice == Some(row.latestPrice) && r.volume == Some(row.volume)
      && r.movement == Some(Movement(row.change, row.changePercent, row.positive))
  {
    if |stock.data| >= 2 then
      var row := RowOf(stock);
      TableRow(row.symbol, Some(row.latestPrice), Some(row.volume), Some(Movement(row.change, row.changePercent, row.positive)))
    else if |stock.data| == 1 then
      TableRow(stock.symbol, Some(stock.data[0].price), Some(stock.data[0].volume), None)
    else
      TableRow(stock.symbol, None, None, None)
  }

  /** The table body: one row per tracked stock, in list order, so that every
      tracked stock can be removed from the table; the movement is shown
      exactly when there are two records, and then as the source computes it. */
  function TableRows(stocks: seq<TrackedStock>): (rows: seq<TableRow>)
    ensures |rows| == |stocks|
    ensures forall k :: 0 <= k < |stocks| ==> rows[k].symbol == stocks[k].symbol
    ensures forall k :: 0 <= k < |stocks| ==>
      (rows[k].volume.Some? <==> |stocks[k].data| >= 1) && (rows[k].latestPrice.Some? <==> |stocks[k].data| >= 1)
    ensures forall k :: 0 <= k < |stocks| && |stocks[k].data| >= 1 ==>
      rows[k].latestPrice == Some(stocks[k].data[|stocks[k].data| - 1].price)
      && rows[k].volume == Some(stocks[k].data[|stocks[k].data| - 1].volume)
    ensures forall k :: 0 <= k < |stocks| ==> (rows[k].movement.Some? <==> |stocks[k].data| >= 2)
    ensures forall k :: 0 <= k < |stocks| && |stocks[k].data| >= 2 ==>
      rows[k].movement == Some(Movement(RowOf(stocks[k]).change, RowOf(stocks[k]).changePercent, RowOf(stocks[k]).positive))
      && rows[k].latestPrice == Some(RowOf(stocks[k]).latestPrice)
  {
    seq(|stocks|, k requires 0 <= k < |stocks| => SafeRow(stocks[k]))
  }

  /** Two days at 100 then 110 with volumes 1000 then 1200: latest price 110,
      change +10, change percent +10 (relative to the previous day), volume 1200. */
  lemma TwoDayExample()
    ensures RowOf(TrackedStock("AAPL", [DailyRecord(20240102, 100.0, 1000), DailyRecord(20240103, 110.0, 1200)]))
      == Row("AAPL", 110.0, 10.0, Finite(10.0), true, 1200)
  {
  }

  /** As written, the add handler accepts a series with fewer than two
      records: a feed with no trading day in the selected range yields a
      tracked stock with an empty series, outside the domain of RowOf. */
  lemma EmptySeriesReachesTable()
    ensures var stocks := AfterAdd([], "AAPL", Received(Some([FeedEntry(20240105, 185.0, 1000)])), 20240101, 20240102);
      && stocks == [TrackedStock("AAPL", [])]
      && UniqueSymbols(stocks)
      && !(|stocks[0].data| >= 2)
      && TableRows(stocks) == [TableRow("AAPL", None, None, None)]
  {
  }
}

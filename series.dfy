/**
 * The series pipeline of the dashboard: the daily time series returned by the
 * market-data feed is cut down to the selected date range, each kept entry
 * becomes a {date, price, volume} record, and the feed's order is reversed
 * (the feed lists the newest day first, the chart wants the oldest first).
 *
 * Dates are already-parsed calendar days, totally ordered as integers; prices
 * and volumes are already-parsed numbers.
 */
module Series {
  import opened Wrappers

  /** One entry of the feed's date-keyed daily series: the date key with its
      closing price and traded volume. */
  datatype FeedEntry = FeedEntry(date: int, close: real, volume: int)

  /** One point of a tracked stock's series. */
  datatype DailyRecord = DailyRecord(date: int, price: real, volume: int)

  /** What the market-data request gives back: the request failed (network
      error, non-2xx status), or a body that may lack the daily time-series
      field. */
  datatype HttpResponse = RequestFailed | Received(timeSeries: Option<seq<FeedEntry>>)

  datatype FetchError = NetworkError | MalformedResponse

  /** The filter's test: the date lies in [startDate, endDate], both ends included. */
  predicate InRange(date: int, startDate: int, endDate: int) {
    startDate <= date <= endDate
  }

  /** The feed entries whose date is in range, in feed order. */
  function SelectInRange(feed: seq<FeedEntry>, startDate: int, endDate: int): (kept: seq<FeedEntry>)
    ensures |kept| <= |feed|
  {
    if feed == [] then []
    else
      (if InRange(feed[0].date, startDate, endDate) then [feed[0]] else [])
      + SelectInRange(feed[1..], startDate, endDate)
  }

  function ToRecord(e: FeedEntry): DailyRecord {
    DailyRecord(e.date, e.close, e.volume)
  }

  /** The `map` step: every kept entry becomes a record, positions unchanged. */
  function ToRecords(entries: seq<FeedEntry>): seq<DailyRecord> {
    seq(|entries|, k requires 0 <= k < |entries| => ToRecord(entries[k]))
  }

  /** The `reverse` step. */
  function Reverse<T>(s: seq<T>): (r: seq<T>)
    ensures |r| == |s|
    ensures forall k :: 0 <= k < |s| ==> r[k] == s[|s| - 1 - k]
  {
    if s == [] then [] else Reverse(s[1..]) + [s[0]]
  }

  /** The whole transform: filter, map, reverse. */
  function BuildSeries(feed: seq<FeedEntry>, startDate: int, endDate: int): (series: seq<DailyRecord>)
    ensures |series| == |SelectInRange(feed, startDate, endDate)| <= |feed|
  {
    Reverse(ToRecords(SelectInRange(feed, startDate, endDate)))
  }

  /** The request's outcome as the handler sees it: a failed request and a
      body without the daily series (on which enumerating the series throws)
      are both errors; otherwise the built series. */
  function FetchSeries(response: HttpResponse, startDate: int, endDate: int): (r: Result<seq<DailyRecord>, FetchError>)
    ensures r == Failure(NetworkError) <==> response.RequestFailed?
    ensures r == Failure(MalformedResponse) <==> response == Received(None)
    ensures r.Success? <==> response.Received? && response.timeSeries.Some?
    ensures r.Success? ==> r.value == BuildSeries(response.timeSeries.value, startDate, endDate)
  {
    match response
    case RequestFailed => Failure(NetworkError)
    case Received(None) => Failure(MalformedResponse)
    case Received(Some(feed)) => Success(BuildSeries(feed, startDate, endDate))
  }

  predicate StrictlyDescending(feed: seq<FeedEntry>) {
    forall i, j :: 0 <= i < j < |feed| ==> feed[i].date > feed[j].date
  }

  predicate StrictlyAscending(series: seq<DailyRecord>) {
    forall i, j :: 0 <= i < j < |series| ==> series[i].date < series[j].date
  }

  /** The filter keeps exactly the in-range entries of the feed. */
  lemma {:induction false} SelectInRangeMembership(feed: seq<FeedEntry>, startDate: int, endDate: int)
    ensures forall e :: e in SelectInRange(feed, startDate, endDate) <==> e in feed && InRange(e.date, startDate, endDate)
  {
    if feed != [] {
      SelectInRangeMembership(feed[1..], startDate, endDate);
      assert feed == [feed[0]] + feed[1..];
    }
  }

  /** The filter works entry by entry and keeps the feed's order: filtering a
      concatenation concatenates the filtered parts. */
  lemma {:induction false} SelectInRangeAppend(a: seq<FeedEntry>, b: seq<FeedEntry>, startDate: int, endDate: int)
    ensures SelectInRange(a + b, startDate, endDate) == SelectInRange(a, startDate, endDate) + SelectInRange(b, startDate, endDate)
  {
    if a != [] {
      assert (a + b)[1..] == a[1..] + b;
      SelectInRangeAppend(a[1..], b, startDate, endDate);
    } else {
      assert a + b == b;
    }
  }

  /** Record k of the series is the k-th kept entry counted from the end of the feed. */
  lemma SeriesAt(feed: seq<FeedEntry>, startDate: int, endDate: int, k: int)
    requires 0 <= k < |BuildSeries(feed, startDate, endDate)|
    ensures var kept := SelectInRange(feed, startDate, endDate);
      |BuildSeries(feed, startDate, endDate)| == |kept|
      && BuildSeries(feed, startDate, endDate)[k] == ToRecord(kept[|kept| - 1 - k])
  {
  }

  /** A record is in the series exactly when some in-range feed entry
      produced it; every record keeps its source entry's date. */
  lemma SeriesKeepsExactlyInRange(feed: seq<FeedEntry>, startDate: int, endDate: int)
    ensures forall rec :: rec in BuildSeries(feed, startDate, endDate) <==>
      exists i :: 0 <= i < |feed| && InRange(feed[i].date, startDate, endDate) && ToRecord(feed[i]) == rec
  {
    var kept := SelectInRange(feed, startDate, endDate);
    var series := BuildSeries(feed, startDate, endDate);
    SelectInRangeMembership(feed, startDate, endDate);
    forall rec | rec in series
      ensures exists i :: 0 <= i < |feed| && InRange(feed[i].date, startDate, endDate) && ToRecord(feed[i]) == rec
    {
      var k :| 0 <= k < |series| && series[k] == rec;
      var e := kept[|kept| - 1 - k];
      assert e in kept;
      var i :| 0 <= i < |feed| && feed[i] == e;
    }
    forall i | 0 <= i < |feed| && InRange(feed[i].date, startDate, endDate)
      ensures ToRecord(feed[i]) in series
    {
      assert feed[i] in kept;
      var j :| 0 <= j < |kept| && kept[j] == feed[i];
      assert series[|kept| - 1 - j] == ToRecord(feed[i]);
    }
  }

  /** Every record of the series lies in the selected range. */
  lemma SeriesWithinRange(feed: seq<FeedEntry>, startDate: int, endDate: int)
    ensures forall k :: 0 <= k < |BuildSeries(feed, startDate, endDate)| ==>
      InRange(BuildSeries(feed, startDate, endDate)[k].date, startDate, endDate)
  {
    var kept := SelectInRange(feed, startDate, endDate);
    SelectInRangeMembership(feed, startDate, endDate);
    forall k | 0 <= k < |BuildSeries(feed, startDate, endDate)|
      ensures InRange(BuildSeries(feed, startDate, endDate)[k].date, startDate, endDate)
    {
      assert kept[|kept| - 1 - k] in kept;
    }
  }

  /** The series is empty exactly when no feed date lies in the range; in
      particular an empty range (startDate > endDate) gives an empty series,
      not an error. */
  lemma SeriesEmptyIff(feed: seq<FeedEntry>, startDate: int, endDate: int)
    ensures BuildSeries(feed, startDate, endDate) == [] <==>
      forall i :: 0 <= i < |feed| ==> !InRange(feed[i].date, startDate, endDate)
    ensures startDate > endDate ==> BuildSeries(feed, startDate, endDate) == []
  {
    SeriesKeepsExactlyInRange(feed, startDate, endDate);
    var series := BuildSeries(feed, startDate, endDate);
    if series == [] {
      forall i | 0 <= i < |feed| ensures !InRange(feed[i].date, startDate, endDate) {
        assert ToRecord(feed[i]) !in series;
      }
    } else {
      assert series[0] in series;
    }
  }

  /** Filtering a newest-first feed keeps it newest-first. */
  lemma {:induction false} SelectKeepsDescending(feed: seq<FeedEntry>, startDate: int, endDate: int)
    requires StrictlyDescending(feed)
    ensures StrictlyDescending(SelectInRange(feed, startDate, endDate))
  {
    if feed != [] {
      var rest := SelectInRange(feed[1..], startDate, endDate);
      SelectKeepsDescending(feed[1..], startDate, endDate);
      SelectInRangeMembership(feed[1..], startDate, endDate);
      forall e | e in rest ensures e.date < feed[0].date {
        var j :| 0 <= j < |feed[1..]| && feed[1..][j] == e;
        assert feed[j + 1] == e;
      }
    }
  }

  /** A strictly newest-first feed yields a strictly oldest-first series. */
  lemma SeriesAscending(feed: seq<FeedEntry>, startDate: int, endDate: int)
    requires StrictlyDescending(feed)
    ensures StrictlyAscending(BuildSeries(feed, startDate, endDate))
  {
    SelectKeepsDescending(feed, startDate, endDate);
  }
}

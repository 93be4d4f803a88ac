/**
 * The sentiment trend chart: the time-range window over the series and
 * the per-day totals.
 */
module SentimentChart {
  import opened FeedbackContext

  datatype TimeRange = Last7Days | Last14Days | Last30Days | AllTime

  /** The selector starts on thirty days. */
  const DefaultRange: TimeRange := Last30Days

  function DaysToFilter(range: TimeRange): (days: nat)
    requires range != AllTime
    ensures days == 7 <==> range == Last7Days
    ensures days == 14 <==> range == Last14Days
    ensures days == 30 <==> range == Last30Days
  {
    match range
    case Last7Days => 7
    case Last14Days => 14
    case Last30Days => 30
  }

  /** `data.slice(-days)`: JavaScript starts at `max(|data| - days, 0)`. */
  function FilteredData<T>(data: seq<T>, range: TimeRange): (r: seq<T>)
    ensures range == AllTime ==> r == data
    ensures range != AllTime ==>
      |r| == (if DaysToFilter(range) <= |data| then DaysToFilter(range) else |data|)
    ensures r == data[|data| - |r|..]
  {
    if range == AllTime then data
    else
      var start := if |data| >= DaysToFilter(range) then |data| - DaysToFilter(range) else 0;
      data[start..]
  }

  datatype TrendRow = TrendRow(daysAgo: nat, positive: int, negative: int, neutral: int, total: int)

  /** `dataWithTotal`: each point with the sum of its three counts. */
  function DataWithTotal(data: seq<SentimentTrend>): (rows: seq<TrendRow>)
    ensures |rows| == |data|
    ensures forall k :: 0 <= k < |rows| ==>
      && rows[k].daysAgo == data[k].daysAgo
      && rows[k].positive == data[k].positive
      && rows[k].negative == data[k].negative
      && rows[k].neutral == data[k].neutral
      && rows[k].total == rows[k].positive + rows[k].negative + rows[k].neutral
  {
    seq(|data|, k requires 0 <= k < |data| =>
      TrendRow(data[k].daysAgo, data[k].positive, data[k].negative, data[k].neutral,
               data[k].positive + data[k].negative + data[k].neutral))
  }

  /**
   * On the generated 31-day series the default view drops exactly the
   * oldest day, keeps 29 days ago down to today, and every total lies in
   * [35, 132].
   */
  lemma DefaultViewOfGeneratedSeries(trends: seq<SentimentTrend>, draws: seq<TrendDraw>)
    requires ValidTrendDraws(draws)
    requires |trends| == TrendLength
    requires forall k :: 0 <= k < |trends| ==> trends[k] == TrendPoint(30 - k, draws[k])
    ensures FilteredData(trends, DefaultRange) == trends[1..]
    ensures var rows := DataWithTotal(FilteredData(trends, DefaultRange));
      |rows| == 30 && rows[0].daysAgo == 29 && rows[29].daysAgo == 0
      && forall k :: 0 <= k < |rows| ==> 35 <= rows[k].total <= 132
  {
    var shown := FilteredData(trends, DefaultRange);
    assert shown == trends[1..];
    forall k | 0 <= k < |shown| ensures shown[k] == TrendPoint(29 - k, draws[k + 1]) {
      assert shown[k] == trends[k + 1];
    }
  }
}

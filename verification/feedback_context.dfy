/**
 * The feedback data provider: the record type, the sentiment rule, the mock
 * record generator, the statistics block of `fetchFeedbacks`, the two
 * independent random series (sentiment trends and category distribution)
 * and the provider's state fields.
 *
 * Every `Math.random()` call is an input here: a draw is the already
 * scaled and floored integer `Math.floor(Math.random() * k)`, so it lies
 * in `[0, k)`. Dates are day offsets counted back from today.
 */
module FeedbackContext {
  import opened JsString
  import opened JsMath

  datatype Sentiment = Positive | Negative | Neutral

  /** One feedback record; `daysAgo` stands for the ISO date `today - daysAgo`. */
  datatype Feedback = Feedback(
    id: string,
    text: string,
    sentiment: Sentiment,
    score: int,
    source: string,
    category: string,
    daysAgo: nat,
    product: string)

  datatype FeedbackStats = FeedbackStats(
    total: nat,
    positive: nat,
    negative: nat,
    neutral: nat,
    averageScore: int)

  /** One point of the trend series; `daysAgo` stands for its date. */
  datatype SentimentTrend = SentimentTrend(daysAgo: nat, positive: int, negative: int, neutral: int)

  datatype CategoryDistribution = CategoryDistribution(category: string, count: int)

  const Categories: seq<string> := ["UI/UX", "Performance", "Feature Request", "Bug Report", "Customer Service"]
  const Products: seq<string> := ["Dashboard", "Mobile App", "Website", "API"]
  const Sources: seq<string> := ["Email", "Chat", "Survey", "Social Media", "App Review"]

  /** Number of records the mock generator produces. */
  const MockCount: nat := 50

  /** Number of points in the trend series: days 30 back to 0. */
  const TrendLength: nat := 31

  /** The bucketing used by the generator: strictly above 70, strictly below 40. */
  function SentimentOf(score: int): (s: Sentiment)
    ensures s == Positive <==> score > 70
    ensures s == Negative <==> score < 40
    ensures s == Neutral <==> 40 <= score <= 70
  {
    if score > 70 then Positive
    else if score < 40 then Negative
    else Neutral
  }

  /** A record as the rest of the dashboard expects it. */
  predicate WellFormed(f: Feedback)
  {
    0 <= f.score <= 100 && f.sentiment == SentimentOf(f.score)
  }

  // ---------------------------------------------------------------------
  // Mock record generator

  /** The random draws behind one generated record. */
  datatype RecordDraw = RecordDraw(
    isPositive: bool,   // Math.random() > 0.3
    scoreDraw: nat,     // floor(r * 30) on the positive branch, floor(r * 40) otherwise
    daysAgo: nat,       // floor(r * 30)
    textProduct: nat,   // product named in the text
    source: nat,
    category: nat,
    product: nat)

  predicate ValidRecordDraw(d: RecordDraw)
  {
    && d.scoreDraw < (if d.isPositive then 30 else 40)
    && d.daysAgo < 30
    && d.textProduct < |Products|
    && d.source < |Sources|
    && d.category < |Categories|
    && d.product < |Products|
  }

  function MockScore(d: RecordDraw): (score: int)
    requires ValidRecordDraw(d)
    ensures d.isPositive ==> 70 <= score <= 99
    ensures !d.isPositive ==> 10 <= score <= 49
  {
    if d.isPositive then d.scoreDraw + 70 else d.scoreDraw + 10
  }

  function FeedbackId(n: nat): string
  {
    "feedback-" + NatToString(n)
  }

  /** Record number `i` (counting from 0) built from its draws. */
  function MockRecord(i: nat, d: RecordDraw): (f: Feedback)
    requires ValidRecordDraw(d)
    ensures WellFormed(f) && 10 <= f.score <= 99
    ensures f.id == FeedbackId(i + 1)
  {
    var score := MockScore(d);
    var text :=
      if d.isPositive then "This is some positive feedback about " + Products[d.textProduct] + "."
      else "This is a complaint about " + Products[d.textProduct] + ".";
    Feedback(
      FeedbackId(i + 1),
      text,
      SentimentOf(score),
      score,
      Sources[d.source],
      Categories[d.category],
      d.daysAgo,
      Products[d.product])
  }

  predicate ValidRecordDraws(draws: seq<RecordDraw>)
  {
    |draws| == MockCount && forall i :: 0 <= i < |draws| ==> ValidRecordDraw(draws[i])
  }

  /** `generateMockFeedbacks`: fifty records `feedback-1` .. `feedback-50`. */
  function GenerateMockFeedbacks(draws: seq<RecordDraw>): (r: seq<Feedback>)
    requires ValidRecordDraws(draws)
    ensures |r| == MockCount
    ensures forall i :: 0 <= i < |r| ==> r[i].id == FeedbackId(i + 1)
    ensures forall i :: 0 <= i < |r| ==> WellFormed(r[i]) && 10 <= r[i].score <= 99
    ensures forall i :: 0 <= i < |r| ==> (draws[i].isPositive <==> r[i].score >= 70)
    ensures forall i :: 0 <= i < |r| ==>
      r[i].source in Sources && r[i].category in Categories && r[i].product in Products
  {
    seq(MockCount, i requires 0 <= i < MockCount => MockRecord(i, draws[i]))
  }

  /**
   * The positive branch draws scores from 70 up, but the bucketing needs
   * more than 70: a positive-branch record is neutral exactly when it drew
   * the lowest score, and positive otherwise.
   */
  lemma PositiveBranchSentiment(i: nat, d: RecordDraw)
    requires ValidRecordDraw(d) && d.isPositive
    ensures MockRecord(i, d).sentiment == Neutral <==> d.scoreDraw == 0
    ensures MockRecord(i, d).sentiment != Negative
  {
  }

  /** Distinct record numbers give distinct ids. */
  lemma FeedbackIdInjective(m: nat, n: nat)
    requires FeedbackId(m) == FeedbackId(n)
    ensures m == n
  {
    var prefix := "feedback-";
    assert NatToString(m) == FeedbackId(m)[|prefix|..];
    assert NatToString(n) == FeedbackId(n)[|prefix|..];
    NatToStringInjective(m, n);
  }

  /** The generated ids are pairwise distinct. */
  lemma MockIdsDistinct(draws: seq<RecordDraw>)
    requires ValidRecordDraws(draws)
    ensures var r := GenerateMockFeedbacks(draws);
      forall i, j :: 0 <= i < j < |r| ==> r[i].id != r[j].id
  {
    var r := GenerateMockFeedbacks(draws);
    forall i, j | 0 <= i < j < |r| ensures r[i].id != r[j].id {
      if r[i].id == r[j].id {
        FeedbackIdInjective(i + 1, j + 1);
      }
    }
  }

  // ---------------------------------------------------------------------
  // Statistics

  /** `records.filter(f => f.sentiment === s).length`. */
  function CountSentiment(records: seq<Feedback>, s: Sentiment): (n: nat)
    ensures n <= |records|
    ensures n == 0 <==> forall i :: 0 <= i < |records| ==> records[i].sentiment != s
    ensures n == |records| <==> forall i :: 0 <= i < |records| ==> records[i].sentiment == s
  {
    if records == [] then 0
    else (if records[0].sentiment == s then 1 else 0) + CountSentiment(records[1..], s)
  }

  /** `records.reduce((sum, f) => sum + f.score, 0)`. */
  function SumScores(records: seq<Feedback>): (sum: int)
    ensures (forall i :: 0 <= i < |records| ==> 0 <= records[i].score) ==> 0 <= sum
  {
    if records == [] then 0 else records[0].score + SumScores(records[1..])
  }

  /** Every record has exactly one of the three sentiments. */
  lemma {:induction false} CountsPartition(records: seq<Feedback>)
    ensures CountSentiment(records, Positive) + CountSentiment(records, Negative)
            + CountSentiment(records, Neutral) == |records|
  {
    if records != [] {
      CountsPartition(records[1..]);
    }
  }

  /** Scores bounded by `[lo, hi]` give a sum bounded by `n * lo` and `n * hi`. */
  lemma {:induction false} SumScoresBetween(records: seq<Feedback>, lo: int, hi: int)
    requires forall i :: 0 <= i < |records| ==> lo <= records[i].score <= hi
    ensures |records| * lo <= SumScores(records) <= |records| * hi
  {
    if records != [] {
      var rest := records[1..];
      SumScoresBetween(rest, lo, hi);
      assert SumScores(records) == records[0].score + SumScores(rest);
      MulStep(|rest|, lo);
      MulStep(|rest|, hi);
    }
  }

  lemma MulStep(n: nat, x: int)
    ensures (n + 1) * x == n * x + x
  {
  }

  /** The stats block of `fetchFeedbacks`; it divides by `total` without a guard. */
  function ComputeStats(records: seq<Feedback>): (st: FeedbackStats)
    requires |records| > 0
    ensures st.total == |records|
    ensures st.positive == CountSentiment(records, Positive)
    ensures st.negative == CountSentiment(records, Negative)
    ensures st.neutral == CountSentiment(records, Neutral)
    ensures st.positive + st.negative + st.neutral == st.total
    ensures 2 * st.total * st.averageScore - st.total <= 2 * SumScores(records)
                                                      < 2 * st.total * st.averageScore + st.total
  {
    CountsPartition(records);
    FeedbackStats(
      |records|,
      CountSentiment(records, Positive),
      CountSentiment(records, Negative),
      CountSentiment(records, Neutral),
      RoundDiv(SumScores(records), |records|))
  }

  /** The rounded average lies between the smallest and the largest score. */
  lemma AverageBetween(records: seq<Feedback>, lo: int, hi: int)
    requires |records| > 0
    requires forall i :: 0 <= i < |records| ==> lo <= records[i].score <= hi
    ensures lo <= ComputeStats(records).averageScore <= hi
  {
    SumScoresBetween(records, lo, hi);
    RoundDivBetween(SumScores(records), |records|, lo, hi);
  }

  /** For generated data the stats are over 50 records and the average is in [10, 99]. */
  lemma MockStats(draws: seq<RecordDraw>)
    requires ValidRecordDraws(draws)
    ensures var st := ComputeStats(GenerateMockFeedbacks(draws));
      st.total == 50 && 10 <= st.averageScore <= 99
  {
    AverageBetween(GenerateMockFeedbacks(draws), 10, 99);
  }

  function Record(id: string, score: int): Feedback
  {
    Feedback(id, "", SentimentOf(score), score, "", "", 0, "")
  }

  /** Scores 95, 85, 50, 25, 10: two positive, two negative, one neutral, average 53. */
  lemma StatsExample()
    ensures ComputeStats([Record("a", 95), Record("b", 85), Record("c", 50), Record("d", 25), Record("e", 10)])
            == FeedbackStats(5, 2, 2, 1, 53)
  {
    var rs := [Record("a", 95), Record("b", 85), Record("c", 50), Record("d", 25), Record("e", 10)];
    assert rs[1..][1..][1..][1..][1..] == [];
    assert SumScores(rs) == 265;
    RoundDivUnique(265, 5, 53);
  }

  // ---------------------------------------------------------------------
  // Sentiment trends and category distribution (independent of the records)

  /** The three draws behind one day of the trend series. */
  datatype TrendDraw = TrendDraw(positive: nat, negative: nat, neutral: nat)

  predicate ValidTrendDraws(draws: seq<TrendDraw>)
  {
    && |draws| == TrendLength
    && forall k :: 0 <= k < |draws| ==>
         draws[k].positive < 50 && draws[k].negative < 20 && draws[k].neutral < 30
  }

  /** The point pushed for `daysAgo` days back. */
  function TrendPoint(daysAgo: nat, d: TrendDraw): (t: SentimentTrend)
    ensures t.daysAgo == daysAgo
  {
    SentimentTrend(daysAgo, d.positive + 20, d.negative + 5, d.neutral + 10)
  }

  /** `generateSentimentTrends`: one point per day from 30 days ago up to today, oldest first. */
  method GenerateSentimentTrends(draws: seq<TrendDraw>) returns (trends: seq<SentimentTrend>)
    requires ValidTrendDraws(draws)
    ensures |trends| == TrendLength
    ensures forall k :: 0 <= k < |trends| ==> trends[k] == TrendPoint(30 - k, draws[k])
    ensures forall k :: 0 <= k < |trends| ==>
      && 20 <= trends[k].positive <= 69
      && 5 <= trends[k].negative <= 24
      && 10 <= trends[k].neutral <= 39
  {
    trends := [];
    var i: int := 30;
    while i >= 0
      invariant -1 <= i <= 30
      invariant |trends| == 30 - i
      invariant forall k :: 0 <= k < |trends| ==> trends[k] == TrendPoint(30 - k, draws[k])
    {
      trends := trends + [TrendPoint(i, draws[30 - i])];
      i := i - 1;
    }
  }

  predicate ValidCategoryDraws(draws: seq<nat>)
  {
    |draws| == 5 && draws[0] < 100 && draws[1] < 80 && draws[2] < 70 && draws[3] < 60 && draws[4] < 50
  }

  /** `generateCategoryDistribution`: the five fixed categories with random counts. */
  function GenerateCategoryDistribution(draws: seq<nat>): (r: seq<CategoryDistribution>)
    requires ValidCategoryDraws(draws)
    ensures |r| == |Categories|
    ensures forall k :: 0 <= k < |r| ==> r[k].category == Categories[k]
    ensures 50 <= r[0].count <= 149 && 40 <= r[1].count <= 119 && 30 <= r[2].count <= 99
    ensures 20 <= r[3].count <= 79 && 10 <= r[4].count <= 59
  {
    [ CategoryDistribution("UI/UX", draws[0] + 50),
      CategoryDistribution("Performance", draws[1] + 40),
      CategoryDistribution("Feature Request", draws[2] + 30),
      CategoryDistribution("Bug Report", draws[3] + 20),
      CategoryDistribution("Customer Service", draws[4] + 10) ]
  }

  // ---------------------------------------------------------------------
  // The provider

  datatype ExportFormat = Csv | Pdf

  /** `FeedbackProvider`'s state and its two operations. */
  class FeedbackProvider {
    var feedbacks: seq<Feedback>
    var loading: bool
    var stats: FeedbackStats
    var sentimentTrends: seq<SentimentTrend>
    var categoryDistribution: seq<CategoryDistribution>

    /** After a fetch the statistics describe exactly the stored records. */
    ghost predicate Fetched()
      reads this
    {
      |feedbacks| > 0 && stats == ComputeStats(feedbacks)
    }

    /** The state before the first fetch completes. */
    constructor ()
      ensures feedbacks == [] && loading
      ensures stats == FeedbackStats(0, 0, 0, 0, 0)
      ensures sentimentTrends == [] && categoryDistribution == []
    {
      feedbacks := [];
      loading := true;
      stats := FeedbackStats(0, 0, 0, 0, 0);
      sentimentTrends := [];
      categoryDistribution := [];
    }

    /** `fetchFeedbacks(filters)`; the filters argument is ignored. */
    method FetchFeedbacks<F>(filters: F, records: seq<RecordDraw>, trends: seq<TrendDraw>, categories: seq<nat>)
      requires ValidRecordDraws(records) && ValidTrendDraws(trends) && ValidCategoryDraws(categories)
      modifies this
      ensures feedbacks == GenerateMockFeedbacks(records)
      ensures stats == ComputeStats(feedbacks) && Fetched()
      ensures |sentimentTrends| == TrendLength
      ensures forall k :: 0 <= k < |sentimentTrends| ==> sentimentTrends[k] == TrendPoint(30 - k, trends[k])
      ensures categoryDistribution == GenerateCategoryDistribution(categories)
      ensures !loading
    {
      loading := true;
      var mock := GenerateMockFeedbacks(records);
      var st := ComputeStats(mock);
      var series := GenerateSentimentTrends(trends);
      feedbacks, stats := mock, st;
      sentimentTrends := series;
      categoryDistribution := GenerateCategoryDistribution(categories);
      loading := false;
    }

    /** `exportFeedbacks(format)`: only the loading flag moves, and it ends false. */
    method ExportFeedbacks(format: ExportFormat)
      modifies this`loading
      ensures !loading
    {
      loading := true;
      loading := false;
    }
  }
}

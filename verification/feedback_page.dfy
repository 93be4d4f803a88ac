/**
 * The four summary cards above the feedback table: a count and a
 * percentage of the whole list, with `length || 1` guarding the division.
 */
module FeedbackPage {
  import opened JsMath
  import opened FeedbackContext

  datatype SummaryCard = SummaryCard(title: string, value: nat, percent: int)

  /** `Math.round((value / (length || 1)) * 100)`. */
  function Percentage(value: nat, length: nat): (p: int)
    ensures length == 0 ==> p == 100 * value
    ensures length > 0 ==> 2 * length * p - length <= 200 * value < 2 * length * p + length
    ensures value <= length ==> 0 <= p <= 100
    ensures 0 < value == length ==> p == 100
  {
    var divisor := if length == 0 then 1 else length;
    RoundingFacts(value, length);
    RoundDiv(100 * value, divisor)
  }

  lemma RoundingFacts(value: nat, length: nat)
    ensures length == 0 ==> RoundDiv(100 * value, 1) == 100 * value
    ensures 0 < length && value <= length ==> 0 <= RoundDiv(100 * value, length) <= 100
    ensures 0 < value == length ==> RoundDiv(100 * value, length) == 100
  {
    if length == 0 {
      RoundDivExact(100 * value, 1);
    } else {
      if value <= length {
        RoundDivBetween(100 * value, length, 0, 100);
      }
      if 0 < value == length {
        RoundDivExact(100, length);
      }
    }
  }

  function Card(title: string, value: nat, length: nat): SummaryCard
  {
    SummaryCard(title, value, Percentage(value, length))
  }

  /** The Total, Positive, Negative and Neutral cards, in that order. */
  function SummaryCards(records: seq<Feedback>): (cards: seq<SummaryCard>)
    ensures |cards| == 4
    ensures cards[0].value == |records|
    ensures cards[1].value == CountSentiment(records, Positive)
    ensures cards[2].value == CountSentiment(records, Negative)
    ensures cards[3].value == CountSentiment(records, Neutral)
    ensures cards[1].value + cards[2].value + cards[3].value == cards[0].value
    ensures forall k :: 0 <= k < 4 ==> cards[k].percent == Percentage(cards[k].value, |records|)
    ensures forall k :: 0 <= k < 4 ==> 0 <= cards[k].percent <= 100
    ensures records == [] ==> forall k :: 0 <= k < 4 ==> cards[k].percent == 0
    ensures records != [] ==> cards[0].percent == 100
  {
    var n := |records|;
    CountsPartition(records);
    [ Card("Total Feedback", n, n),
      Card("Positive", CountSentiment(records, Positive), n),
      Card("Negative", CountSentiment(records, Negative), n),
      Card("Neutral", CountSentiment(records, Neutral), n) ]
  }

  /** The cards count what the provider's statistics count. */
  lemma CardsMatchStats(records: seq<Feedback>)
    requires |records| > 0
    ensures var cards := SummaryCards(records);
      var st := ComputeStats(records);
      cards[0].value == st.total && cards[1].value == st.positive
      && cards[2].value == st.negative && cards[3].value == st.neutral
  {
  }
}

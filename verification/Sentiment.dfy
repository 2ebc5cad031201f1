/** Record sentiment and its accumulation, internal/demo/sentiment.go. Floating-point scores are reals. */
module Sentiment {
  import opened Wrappers

  /** A sentiment label: one of the three that are produced here, none (the empty string), or any
      other text an analyzer may return. */
  datatype Tone = Positive | Negative | Neutral | NoTone | OtherTone(text: string)

  datatype SentimentSummary = SentimentSummary(
    positive: nat, negative: nat, neutral: nat, average: real, tone: Tone)
  {
    function TotalRecords(): nat {
      positive + negative + neutral
    }
  }

  datatype RecordSentiment = RecordSentiment(score: real, tone: Tone)

  function SentimentLabel(score: real): Tone {
    if score >= 0.2 then Positive
    else if score <= -0.2 then Negative
    else Neutral
  }

  datatype Bucket = PositiveBucket | NegativeBucket | NeutralBucket

  /** A result counts under its own label, or the one of its score if it has none. */
  function BucketOf(result: RecordSentiment): Bucket {
    match if result.tone.NoTone? then SentimentLabel(result.score) else result.tone
    case Positive => PositiveBucket
    case Negative => NegativeBucket
    case _ => NeutralBucket
  }

  /** A nil result adds nothing. */
  function InBucket(result: Option<RecordSentiment>, bucket: Bucket): nat {
    if result.Some? && BucketOf(result.value) == bucket then 1 else 0
  }

  function ScoreOf(result: Option<RecordSentiment>): real {
    if result.Some? then result.value.score else 0.0
  }

  /** The summary of results with the given counts and total score, if there are any. */
  function Summarise(positive: nat, negative: nat, neutral: nat, score: real): Option<SentimentSummary> {
    var total := positive + negative + neutral;
    if total == 0 then None
    else
      var average := score / total as real;
      Some(SentimentSummary(positive, negative, neutral, average, SentimentLabel(average)))
  }

  class SentimentAccumulator {
    var summary: SentimentSummary
    var totalScore: real

    constructor ()
      ensures summary.positive == summary.negative == summary.neutral == 0 && totalScore == 0.0
    {
      summary := SentimentSummary(0, 0, 0, 0.0, Neutral);
      totalScore := 0.0;
    }

    method AddResult(result: Option<RecordSentiment>)
      modifies this
      ensures summary.positive == old(summary.positive) + InBucket(result, PositiveBucket)
      ensures summary.negative == old(summary.negative) + InBucket(result, NegativeBucket)
      ensures summary.neutral == old(summary.neutral) + InBucket(result, NeutralBucket)
      ensures totalScore == old(totalScore) + ScoreOf(result)
      ensures result.None? ==> summary == old(summary) && totalScore == old(totalScore)
      ensures result.Some? ==>
        var RecordSentiment(score, tone) := result.value;
        && totalScore == old(totalScore) + score
        && summary ==
             if tone == Positive || (tone == NoTone && score >= 0.2) then
               old(summary).(positive := old(summary).positive + 1)
             else if tone == Negative || (tone == NoTone && score <= -0.2) then
               old(summary).(negative := old(summary).negative + 1)
             else old(summary).(neutral := old(summary).neutral + 1)
    {
      if result.None? {
        return;
      }
      var tone := result.value.tone;
      if tone.NoTone? {
        tone := SentimentLabel(result.value.score);
      }
      if tone.Positive? {
        summary := summary.(positive := summary.positive + 1);
      } else if tone.Negative? {
        summary := summary.(negative := summary.negative + 1);
      } else {
        summary := summary.(neutral := summary.neutral + 1);
      }
      totalScore := totalScore + result.value.score;
    }

    method Result() returns (r: Option<SentimentSummary>)
      modifies this
      ensures r == Summarise(old(summary).positive, old(summary).negative, old(summary).neutral, old(totalScore))
      ensures totalScore == old(totalScore) && summary == if r.None? then old(summary) else r.value
      ensures var total := old(summary).positive + old(summary).negative + old(summary).neutral;
        && (r.None? <==> total == 0)
        && (r.Some? ==>
              && r.value.positive == old(summary).positive && r.value.negative == old(summary).negative
              && r.value.neutral == old(summary).neutral
              && r.value.average * total as real == totalScore
              && (r.value.tone == Positive <==> r.value.average >= 0.2)
              && (r.value.tone == Negative <==> r.value.average <= -0.2)
              && (r.value.tone == Neutral <==> -0.2 < r.value.average < 0.2))
    {
      var total := summary.TotalRecords();
      if total == 0 {
        return None;
      }
      summary := summary.(average := totalScore / total as real);
      summary := summary.(tone := SentimentLabel(summary.average));
      return Some(summary);
    }
  }

  // ----- The lexicon score

  const POSITIVE_LEXICON: set<string> := {
    "amazing", "awesome", "best", "excellent", "fantastic", "fast", "good", "great", "happy", "love", "positive",
    "recommend", "reliable", "solid", "wonderful"
  }

  const NEGATIVE_LEXICON: set<string> := {
    "awful", "bad", "broken", "disappointing", "error", "fail", "hate", "negative", "poor", "problem",
    "slow", "terrible", "unhappy", "worst"
  }

  /** How many of the first n tokens are in the lexicon. */
  function Hits(tokens: seq<string>, n: nat, lexicon: set<string>): nat
    requires n <= |tokens|
  {
    if n == 0 then 0 else Hits(tokens, n - 1, lexicon) + if tokens[n - 1] in lexicon then 1 else 0
  }

  lemma {:induction false} HitsAreCounted(tokens: seq<string>, n: nat, lexicon: set<string>)
    requires n <= |tokens|
    ensures Hits(tokens, n, lexicon) == |set i | 0 <= i < n && tokens[i] in lexicon|
  {
    if n > 0 {
      HitsAreCounted(tokens, n - 1, lexicon);
      assert (set i | 0 <= i < n && tokens[i] in lexicon)
        == (set i | 0 <= i < n - 1 && tokens[i] in lexicon) + if tokens[n - 1] in lexicon then {n - 1} else {};
    }
  }

  method CountHits(tokens: seq<string>, positive: set<string>, negative: set<string>) returns (pos: nat, neg: nat)
    ensures pos == Hits(tokens, |tokens|, positive) && neg == Hits(tokens, |tokens|, negative)
  {
    pos, neg := 0, 0;
    for i := 0 to |tokens|
      invariant pos == Hits(tokens, i, positive) && neg == Hits(tokens, i, negative)
    {
      if tokens[i] in positive {
        pos := pos + 1;
      }
      if tokens[i] in negative {
        neg := neg + 1;
      }
    }
  }

  /** The score of a tokenised text is in [-1, 1], its sign says which lexicon is hit more often, and
      it is extreme exactly when only one lexicon is hit. */
  method SentimentScore(tokens: seq<string>) returns (score: real)
    ensures -1.0 <= score <= 1.0
    ensures var p := |set i | 0 <= i < |tokens| && tokens[i] in POSITIVE_LEXICON|;
      var n := |set i | 0 <= i < |tokens| && tokens[i] in NEGATIVE_LEXICON|;
      && (score > 0.0 <==> p > n) && (score < 0.0 <==> p < n)
      && (score == 1.0 <==> p > 0 && n == 0) && (score == -1.0 <==> n > 0 && p == 0)
      && score * (p + n) as real == (p - n) as real
  {
    HitsAreCounted(tokens, |tokens|, POSITIVE_LEXICON);
    HitsAreCounted(tokens, |tokens|, NEGATIVE_LEXICON);
    if |tokens| == 0 {
      return 0.0;
    }
    var pos, neg := CountHits(tokens, POSITIVE_LEXICON, NEGATIVE_LEXICON);
    if pos == 0 && neg == 0 {
      return 0.0;
    }
    score := (pos as int - neg as int) as real / (pos + neg) as real;
    QuotientFacts(pos, neg, score);
  }

  lemma QuotientFacts(p: nat, n: nat, score: real)
    requires p + n > 0 && score == (p - n) as real / (p + n) as real
    ensures score * (p + n) as real == (p - n) as real
    ensures -1.0 <= score <= 1.0
    ensures (score > 0.0 <==> p > n) && (score < 0.0 <==> p < n)
    ensures (score == 1.0 <==> n == 0) && (score == -1.0 <==> p == 0)
  {
    var total := (p + n) as real;
    Bracket(score, total, (p - n) as real);
  }

  /** Comparing a quotient with -1, 0 and 1 is comparing its numerator. */
  lemma Bracket(q: real, total: real, x: real)
    requires total > 0.0 && q == x / total
    ensures q * total == x
    ensures (q > 0.0 <==> x > 0.0) && (q < 0.0 <==> x < 0.0)
    ensures (q <= 1.0 <==> x <= total) && (q >= -1.0 <==> x >= -total)
    ensures (q == 1.0 <==> x == total) && (q == -1.0 <==> x == -total)
  {
    assert q * total == x;
    assert 1.0 * total == total && -1.0 * total == -total && 0.0 * total == 0.0;
    if q > 1.0 {
      Scale(1.0, q, total);
    }
    if q < -1.0 {
      Scale(q, -1.0, total);
    }
    if q > 0.0 {
      Scale(0.0, q, total);
    }
    if q < 0.0 {
      Scale(q, 0.0, total);
    }
    if q < 1.0 {
      Scale(q, 1.0, total);
    }
    if q > -1.0 {
      Scale(-1.0, q, total);
    }
    assert q == 1.0 ==> x == total;
    assert x == total ==> q == 1.0;
    assert q == -1.0 ==> x == -total;
    assert x == -total ==> q == -1.0;
  }

  lemma Scale(a: real, b: real, c: real)
    requires a < b && c > 0.0
    ensures a * c < b * c
  {
  }
}

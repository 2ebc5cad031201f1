/** Merging the results of all instances: AggregatedMetrics.Calculate and aggregateSentiment of
    internal/demo/metrics.go. Floating-point numbers are reals. */
module Metrics {
  import opened Wrappers
  import opened Sums
  import opened Sentiment
  import opened Processor

  function BytesOf(m: ProcessMetrics): nat { m.bytes }

  function LinesOf(m: ProcessMetrics): nat { m.lines }

  function WordsOf(m: ProcessMetrics): nat { m.words }

  function CharactersOf(m: ProcessMetrics): nat { m.characters }

  function RecordsOf(m: ProcessMetrics): nat { m.records }

  function PositivesOf(m: ProcessMetrics): nat {
    if m.sentiment.Some? then m.sentiment.value.positive else 0
  }

  function NegativesOf(m: ProcessMetrics): nat {
    if m.sentiment.Some? then m.sentiment.value.negative else 0
  }

  function NeutralsOf(m: ProcessMetrics): nat {
    if m.sentiment.Some? then m.sentiment.value.neutral else 0
  }

  function Weighted(average: real, n: nat): real {
    average * n as real
  }

  /** The average of an instance, weighted by its records. */
  function WeightedScoreOf(m: ProcessMetrics): real {
    if m.sentiment.Some? then Weighted(m.sentiment.value.average, m.sentiment.value.TotalRecords()) else 0.0
  }

  function WeightedScores(instances: seq<ProcessMetrics>, n: nat): real
    requires n <= |instances|
  {
    if n == 0 then 0.0 else WeightedScores(instances, n - 1) + WeightedScoreOf(instances[n - 1])
  }

  /** The merged sentiment of all instances. */
  function MergedSentiment(instances: seq<ProcessMetrics>): Option<SentimentSummary> {
    Summarise(Total(instances, PositivesOf), Total(instances, NegativesOf), Total(instances, NeutralsOf),
              WeightedScores(instances, |instances|))
  }

  function SumSeconds(instances: seq<ProcessMetrics>): real {
    if instances == [] then 0.0 else SumSeconds(instances[..|instances| - 1]) + instances[|instances| - 1].seconds
  }

  ghost predicate IsMaximum(x: real, instances: seq<ProcessMetrics>) {
    && (exists i :: 0 <= i < |instances| && instances[i].seconds == x)
    && (forall i :: 0 <= i < |instances| ==> instances[i].seconds <= x)
  }

  ghost predicate IsMinimum(x: real, instances: seq<ProcessMetrics>) {
    && (exists i :: 0 <= i < |instances| && instances[i].seconds == x)
    && (forall i :: 0 <= i < |instances| ==> x <= instances[i].seconds)
  }

  class AggregatedMetrics {
    const instances: seq<ProcessMetrics>
    var totalBytes: int
    var totalLines: int
    var totalWords: int
    var totalCharacters: int
    var totalRecords: int
    var maxSeconds: real
    var minSeconds: real
    var avgSeconds: real
    var efficiency: real
    var sentiment: Option<SentimentSummary>

    constructor (instances: seq<ProcessMetrics>)
      ensures this.instances == instances && sentiment == None && efficiency == 0.0
      ensures totalBytes == totalLines == totalWords == totalCharacters == totalRecords == 0
    {
      this.instances := instances;
      totalBytes, totalLines, totalWords, totalCharacters, totalRecords := 0, 0, 0, 0, 0;
      maxSeconds, minSeconds, avgSeconds, efficiency := 0.0, 0.0, 0.0, 0.0;
      sentiment := None;
    }

    /** Adds the instances' counts to the totals there are, so a second call counts them twice. */
    method Calculate()
      modifies this
      ensures totalBytes == old(totalBytes) + Total(instances, BytesOf)
      ensures totalLines == old(totalLines) + Total(instances, LinesOf)
      ensures totalWords == old(totalWords) + Total(instances, WordsOf)
      ensures totalCharacters == old(totalCharacters) + Total(instances, CharactersOf)
      ensures totalRecords == old(totalRecords) + Total(instances, RecordsOf)
      ensures sentiment == if MergedSentiment(instances).None? then old(sentiment) else MergedSentiment(instances)
      ensures instances == [] ==>
        && maxSeconds == old(maxSeconds) && minSeconds == old(minSeconds)
        && avgSeconds == old(avgSeconds) && efficiency == old(efficiency)
      ensures instances != [] ==>
        && IsMaximum(maxSeconds, instances) && IsMinimum(minSeconds, instances)
        && avgSeconds == SumSeconds(instances) / |instances| as real
        && minSeconds <= avgSeconds <= maxSeconds
        && (if maxSeconds > 0.0 then efficiency == avgSeconds / maxSeconds <= 1.0
            else efficiency == old(efficiency))
    {
      if |instances| == 0 {
        return;
      }
      SumCounts();
      AggregateTimes();
      AggregateSentiment();
    }

    method SumCounts()
      modifies this`totalBytes, this`totalLines, this`totalWords, this`totalCharacters, this`totalRecords
      ensures totalBytes == old(totalBytes) + Total(instances, BytesOf)
      ensures totalLines == old(totalLines) + Total(instances, LinesOf)
      ensures totalWords == old(totalWords) + Total(instances, WordsOf)
      ensures totalCharacters == old(totalCharacters) + Total(instances, CharactersOf)
      ensures totalRecords == old(totalRecords) + Total(instances, RecordsOf)
    {
      for i := 0 to |instances|
        invariant totalBytes == old(totalBytes) + SumTo(instances, i, BytesOf)
        invariant totalLines == old(totalLines) + SumTo(instances, i, LinesOf)
        invariant totalWords == old(totalWords) + SumTo(instances, i, WordsOf)
        invariant totalCharacters == old(totalCharacters) + SumTo(instances, i, CharactersOf)
        invariant totalRecords == old(totalRecords) + SumTo(instances, i, RecordsOf)
      {
        var m := instances[i];
        totalBytes := totalBytes + m.bytes;
        totalLines := totalLines + m.lines;
        totalWords := totalWords + m.words;
        totalCharacters := totalCharacters + m.characters;
        totalRecords := totalRecords + m.records;
      }
    }

    method ScanTimes() returns (maxTime: real, minTime: real, totalTime: real)
      requires instances != []
      ensures IsMaximum(maxTime, instances) && IsMinimum(minTime, instances) && totalTime == SumSeconds(instances)
    {
      maxTime, minTime, totalTime := instances[0].seconds, instances[0].seconds, 0.0;
      ghost var slowest: nat, fastest: nat := 0, 0;
      for i := 0 to |instances|
        invariant slowest < |instances| && instances[slowest].seconds == maxTime
        invariant fastest < |instances| && instances[fastest].seconds == minTime
        invariant forall j :: 0 <= j < i ==> minTime <= instances[j].seconds <= maxTime
        invariant totalTime == SumSeconds(instances[..i])
      {
        var m := instances[i];
        if m.seconds > maxTime {
          maxTime := m.seconds;
          slowest := i;
        }
        if m.seconds < minTime {
          minTime := m.seconds;
          fastest := i;
        }
        assert instances[..i + 1][..i] == instances[..i];
        totalTime := totalTime + m.seconds;
      }
      assert instances[..|instances|] == instances;
    }

    method AggregateTimes()
      requires instances != []
      modifies this`maxSeconds, this`minSeconds, this`avgSeconds, this`efficiency
      ensures IsMaximum(maxSeconds, instances) && IsMinimum(minSeconds, instances)
      ensures avgSeconds == SumSeconds(instances) / |instances| as real
      ensures minSeconds <= avgSeconds <= maxSeconds
      ensures if maxSeconds > 0.0 then efficiency == avgSeconds / maxSeconds <= 1.0
              else efficiency == old(efficiency)
    {
      var maxTime, minTime, totalTime := ScanTimes();
      AverageFacts(instances, minTime, maxTime);
      maxSeconds := maxTime;
      minSeconds := minTime;
      avgSeconds := totalTime / |instances| as real;
      if maxSeconds > 0.0 {
        efficiency := avgSeconds / maxSeconds;
        EfficiencyFacts(efficiency, avgSeconds, maxSeconds);
      }
    }

    method MergeSentiments() returns (positive: nat, negative: nat, neutral: nat, weighted: real, withSentiment: nat)
      ensures positive == Total(instances, PositivesOf)
      ensures negative == Total(instances, NegativesOf)
      ensures neutral == Total(instances, NeutralsOf)
      ensures weighted == WeightedScores(instances, |instances|)
      ensures withSentiment == positive + negative + neutral
    {
      positive, negative, neutral, weighted, withSentiment := 0, 0, 0, 0.0, 0;
      for i := 0 to |instances|
        invariant positive == SumTo(instances, i, PositivesOf)
        invariant negative == SumTo(instances, i, NegativesOf)
        invariant neutral == SumTo(instances, i, NeutralsOf)
        invariant weighted == WeightedScores(instances, i)
        invariant withSentiment == positive + negative + neutral
      {
        var m := instances[i];
        if m.sentiment.None? {
          continue;
        }
        var s := m.sentiment.value;
        positive := positive + s.positive;
        negative := negative + s.negative;
        neutral := neutral + s.neutral;
        weighted := weighted + s.average * s.TotalRecords() as real;
        withSentiment := withSentiment + s.TotalRecords();
      }
    }

    /** Nothing changes when no instance has sentiment. */
    method AggregateSentiment()
      modifies this`sentiment
      ensures sentiment == if MergedSentiment(instances).None? then old(sentiment) else MergedSentiment(instances)
    {
      var positive, negative, neutral, weighted, withSentiment := MergeSentiments();
      if withSentiment == 0 {
        return;
      }
      var average := weighted / withSentiment as real;
      sentiment := Some(SentimentSummary(positive, negative, neutral, average, SentimentLabel(average)));
    }
  }

  /** Every instance's time counts once. */
  lemma {:induction false} SecondsAddUp(a: seq<ProcessMetrics>, b: seq<ProcessMetrics>)
    ensures SumSeconds(a + b) == SumSeconds(a) + SumSeconds(b)
    ensures |b| == 1 ==> SumSeconds(b) == b[0].seconds
  {
    if b == [] {
      assert a + b == a;
    } else {
      SecondsAddUp(a, b[..|b| - 1]);
      assert (a + b)[..|a + b| - 1] == a + b[..|b| - 1];
    }
  }

  lemma {:induction false} SumBounds(instances: seq<ProcessMetrics>, lo: real, hi: real)
    requires forall i :: 0 <= i < |instances| ==> lo <= instances[i].seconds <= hi
    ensures |instances| as real * lo <= SumSeconds(instances) <= |instances| as real * hi
  {
    if instances != [] {
      var init := instances[..|instances| - 1];
      SumBounds(init, lo, hi);
      assert |instances| as real * lo == |init| as real * lo + lo;
      assert |instances| as real * hi == |init| as real * hi + hi;
    }
  }

  lemma AverageFacts(instances: seq<ProcessMetrics>, lo: real, hi: real)
    requires instances != [] && forall i :: 0 <= i < |instances| ==> lo <= instances[i].seconds <= hi
    ensures var mean := SumSeconds(instances) / |instances| as real;
      lo <= mean <= hi
  {
    SumBounds(instances, lo, hi);
    MeanBounds(SumSeconds(instances) / |instances| as real, |instances| as real, SumSeconds(instances), lo, hi);
  }

  lemma MeanBounds(mean: real, n: real, sum: real, lo: real, hi: real)
    requires n > 0.0 && mean == sum / n && n * lo <= sum <= n * hi
    ensures mean * n == sum && lo <= mean <= hi
  {
    assert mean * n == sum;
    if mean < lo {
      Scale(mean, lo, n);
    }
    if mean > hi {
      Scale(hi, mean, n);
    }
  }

  lemma EfficiencyFacts(efficiency: real, mean: real, slowest: real)
    requires slowest > 0.0 && mean <= slowest && efficiency == mean / slowest
    ensures efficiency <= 1.0
  {
    Bracket(efficiency, slowest, mean);
  }
}

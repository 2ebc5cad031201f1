/** When every record is given a score in [-1, 1], as the lexicon does, every record is counted in
    exactly one bucket and no average leaves [-1, 1] (internal/demo/sentiment.go, internal/demo/metrics.go). */
module ScoreBounds {
  import opened Wrappers
  import opened Sums
  import opened Chunker
  import opened Sentiment
  import opened Processor
  import opened Metrics

  predicate InRange(x: real) {
    -1.0 <= x <= 1.0
  }

  predicate Scored(a: Analysis) {
    a.Analysed? && a.result.Some? && InRange(a.result.value.score)
  }

  function Results(s: Option<SentimentSummary>): nat {
    if s.Some? then s.value.TotalRecords() else 0
  }

  lemma {:induction false} EachRecordInOneBucket<R>(tk: Toolkit<R>, records: seq<R>, n: nat)
    requires n <= |records| && forall i :: 0 <= i < |records| ==> Scored(tk.Analyze(records[i]))
    ensures BucketTo(tk, records, n, PositiveBucket) + BucketTo(tk, records, n, NegativeBucket)
          + BucketTo(tk, records, n, NeutralBucket) == n
    ensures -(n as real) <= ScoreTo(tk, records, n) <= n as real
  {
    if n > 0 {
      EachRecordInOneBucket(tk, records, n - 1);
      assert Scored(tk.Analyze(records[n - 1]));
    }
  }

  lemma QuotientInRange(x: real, n: nat)
    requires n > 0 && -(n as real) <= x <= n as real
    ensures InRange(x / n as real)
  {
    Bracket(x / n as real, n as real, x);
  }

  lemma ProductInRange(q: real, n: nat)
    requires InRange(q)
    ensures -(n as real) <= Weighted(q, n) <= n as real
  {
    ProductGrows(q, 1.0, n as real);
    ProductGrows(-1.0, q, n as real);
    assert q * n as real <= 1.0 * n as real == n as real;
    assert -(n as real) == -1.0 * n as real <= q * n as real;
  }

  lemma ProductGrows(a: real, b: real, c: real)
    requires a <= b && 0.0 <= c
    ensures a * c <= b * c
  {
    if a < b && 0.0 < c {
      Scale(a, b, c);
    }
  }

  /** Every instance counts each of its records in one bucket, and its average is in range, in both modes. */
  lemma InstanceInRange<R>(tk: Toolkit<R>, range: ByteRange, bytes: nat, records: seq<R>)
    requires forall i :: 0 <= i < |records| ==> Scored(tk.Analyze(records[i]))
    ensures CountOutcome(tk, range, bytes, records).Ok?
    ensures var m := CountOutcome(tk, range, bytes, records).value;
      Results(m.sentiment) == m.records && (m.sentiment.Some? ==> InRange(m.sentiment.value.average))
  {
    EachRecordInOneBucket(tk, records, |records|);
    if |records| > 0 {
      QuotientInRange(ScoreTo(tk, records, |records|), |records|);
    }
  }

  /** Merging keeps both: the buckets add up to the records, and the weighted average is in range. */
  lemma MergedInRange(reports: seq<ProcessMetrics>)
    requires forall i :: 0 <= i < |reports| ==>
      && Results(reports[i].sentiment) == reports[i].records
      && (reports[i].sentiment.Some? ==> InRange(reports[i].sentiment.value.average))
    ensures Results(MergedSentiment(reports)) == Total(reports, RecordsOf)
    ensures MergedSentiment(reports).Some? ==> InRange(MergedSentiment(reports).value.average)
  {
    MergedBounds(reports, |reports|);
    var total := Total(reports, RecordsOf);
    if total > 0 {
      QuotientInRange(WeightedScores(reports, |reports|), total);
    }
  }

  lemma {:induction false} MergedBounds(reports: seq<ProcessMetrics>, n: nat)
    requires n <= |reports|
    requires forall i :: 0 <= i < |reports| ==>
      && Results(reports[i].sentiment) == reports[i].records
      && (reports[i].sentiment.Some? ==> InRange(reports[i].sentiment.value.average))
    ensures SumTo(reports, n, PositivesOf) + SumTo(reports, n, NegativesOf) + SumTo(reports, n, NeutralsOf)
         == SumTo(reports, n, RecordsOf)
    ensures -(SumTo(reports, n, RecordsOf) as real) <= WeightedScores(reports, n)
    ensures WeightedScores(reports, n) <= SumTo(reports, n, RecordsOf) as real
  {
    if n > 0 {
      MergedBounds(reports, n - 1);
      WeightInRange(reports[n - 1]);
    }
  }

  lemma WeightInRange(m: ProcessMetrics)
    requires Results(m.sentiment) == m.records && (m.sentiment.Some? ==> InRange(m.sentiment.value.average))
    ensures -(m.records as real) <= WeightedScoreOf(m) <= m.records as real
  {
    if m.sentiment.Some? {
      var s := m.sentiment.value;
      ProductInRange(s.average, s.TotalRecords());
    }
  }
}

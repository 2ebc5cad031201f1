/** RECORD mode: any number of instances, merged, report exactly what one instance reports that
    processes all records (internal/demo/processor.go with internal/demo/metrics.go). */
module RecordMode {
  import opened Wrappers
  import opened Sums
  import opened Splits
  import opened Chunker
  import opened Lines
  import opened Sentiment
  import opened Processor
  import opened Metrics

  /** What the instances report: all succeed, and each takes as long as it takes. */
  ghost predicate AreReports<R>(tk: Toolkit<R>, records: seq<R>, reports: seq<ProcessMetrics>) {
    && |reports| > 0
    && forall i :: 0 <= i < |reports| ==> RecordOutcome(tk, records, |reports|, i) == Ok(reports[i].(seconds := 0.0))
  }

  /** A report counts the given records. */
  ghost predicate Reports<R>(m: ProcessMetrics, tk: Toolkit<R>, records: seq<R>) {
    && m.bytes == Total(records, tk.size) && m.lines == m.records == |records|
    && m.words == Total(records, tk.fields) && m.characters == Total(records, tk.runes)
    && m.sentiment == SummaryTo(tk, records, |records|)
  }

  lemma ReportOfPiece<R>(tk: Toolkit<R>, records: seq<R>, reports: seq<ProcessMetrics>, i: nat)
    requires AreReports(tk, records, reports) && i < |reports|
    ensures AllAnalysed(tk, Pieces(records, |reports|)[i]) && Reports(reports[i], tk, Pieces(records, |reports|)[i])
  {
    assert Ok(reports[i].(seconds := 0.0)) == RecordOutcome(tk, records, |reports|, i);
  }

  // ----- Counts

  /** If each report gives the total over its piece, the reports together give the total over all pieces. */
  lemma {:induction false} TotalOverPieces<R>(
    pieces: seq<seq<R>>, measure: R -> nat, reports: seq<ProcessMetrics>, field: ProcessMetrics -> nat, n: nat)
    requires n <= |pieces| == |reports|
    requires forall i :: 0 <= i < n ==> field(reports[i]) == Total(pieces[i], measure)
    ensures SumTo(reports, n, field) == Total(Joined(pieces, n), measure)
  {
    if n > 0 {
      TotalOverPieces(pieces, measure, reports, field, n - 1);
      TotalJoin(Joined(pieces, n - 1), pieces[n - 1], measure);
    }
  }

  lemma {:induction false} LengthOverPieces<R>(
    pieces: seq<seq<R>>, reports: seq<ProcessMetrics>, field: ProcessMetrics -> nat, n: nat)
    requires n <= |pieces| == |reports|
    requires forall i :: 0 <= i < n ==> field(reports[i]) == |pieces[i]|
    ensures SumTo(reports, n, field) == |Joined(pieces, n)|
  {
    if n > 0 {
      LengthOverPieces(pieces, reports, field, n - 1);
    }
  }

  // ----- Sentiment

  /** No total score comes without a result. */
  lemma {:induction false} NoResultsNoScore<R>(tk: Toolkit<R>, records: seq<R>, n: nat)
    requires n <= |records|
    requires BucketTo(tk, records, n, PositiveBucket) == 0
    requires BucketTo(tk, records, n, NegativeBucket) == 0
    requires BucketTo(tk, records, n, NeutralBucket) == 0
    ensures ScoreTo(tk, records, n) == 0.0
  {
    if n > 0 {
      NoResultsNoScore(tk, records, n - 1);
    }
  }

  lemma QuotientTimes(x: real, n: nat)
    requires n > 0
    ensures x / n as real * n as real == x
  {
  }

  /** Reporting an average loses nothing: weighted by the counts, it gives back the total score. */
  lemma SummaryKeepsResults<R>(m: ProcessMetrics, tk: Toolkit<R>, records: seq<R>)
    requires m.sentiment == SummaryTo(tk, records, |records|)
    ensures PositivesOf(m) == BucketTo(tk, records, |records|, PositiveBucket)
    ensures NegativesOf(m) == BucketTo(tk, records, |records|, NegativeBucket)
    ensures NeutralsOf(m) == BucketTo(tk, records, |records|, NeutralBucket)
    ensures WeightedScoreOf(m) == ScoreTo(tk, records, |records|)
  {
    if m.sentiment.None? {
      NoResultsNoScore(tk, records, |records|);
    } else {
      QuotientTimes(ScoreTo(tk, records, |records|), m.sentiment.value.TotalRecords());
    }
  }

  lemma {:induction false} BucketOverPieces<R>(
    tk: Toolkit<R>, pieces: seq<seq<R>>, bucket: Bucket, reports: seq<ProcessMetrics>,
    field: ProcessMetrics -> nat, n: nat)
    requires n <= |pieces| == |reports|
    requires forall i :: 0 <= i < n ==> field(reports[i]) == BucketTo(tk, pieces[i], |pieces[i]|, bucket)
    ensures SumTo(reports, n, field) == BucketTo(tk, Joined(pieces, n), |Joined(pieces, n)|, bucket)
  {
    if n > 0 {
      BucketOverPieces(tk, pieces, bucket, reports, field, n - 1);
      ResultsAfter(tk, Joined(pieces, n - 1), pieces[n - 1], |pieces[n - 1]|, bucket);
    }
  }

  lemma {:induction false} ScoreOverPieces<R>(tk: Toolkit<R>, pieces: seq<seq<R>>, reports: seq<ProcessMetrics>, n: nat)
    requires n <= |pieces| == |reports|
    requires forall i :: 0 <= i < n ==> WeightedScoreOf(reports[i]) == ScoreTo(tk, pieces[i], |pieces[i]|)
    ensures WeightedScores(reports, n) == ScoreTo(tk, Joined(pieces, n), |Joined(pieces, n)|)
  {
    if n > 0 {
      ScoreOverPieces(tk, pieces, reports, n - 1);
      ResultsAfter(tk, Joined(pieces, n - 1), pieces[n - 1], |pieces[n - 1]|, PositiveBucket);
    }
  }

  // ----- Success

  lemma AnalysedJoin<R>(tk: Toolkit<R>, a: seq<R>, b: seq<R>)
    ensures AllAnalysed(tk, a + b) <==> AllAnalysed(tk, a) && AllAnalysed(tk, b)
  {
    if AllAnalysed(tk, a + b) {
      assert forall i :: 0 <= i < |a| ==> a[i] == (a + b)[i];
      assert forall i :: 0 <= i < |b| ==> b[i] == (a + b)[|a| + i];
    }
  }

  lemma {:induction false} AnalysedPrefix<R>(tk: Toolkit<R>, pieces: seq<seq<R>>, n: nat)
    requires n <= |pieces|
    ensures AllAnalysed(tk, Joined(pieces, n)) <==> forall i :: 0 <= i < n ==> AllAnalysed(tk, pieces[i])
  {
    if n > 0 {
      AnalysedPrefix(tk, pieces, n - 1);
      AnalysedJoin(tk, Joined(pieces, n - 1), pieces[n - 1]);
    }
  }

  lemma OutcomeOfPiece<R>(tk: Toolkit<R>, records: seq<R>, total: nat, i: nat)
    requires i < total
    ensures RecordOutcome(tk, records, total, i).Ok? <==> AllAnalysed(tk, Pieces(records, total)[i])
    ensures RecordOutcome(tk, records, total, i).Ok? ==>
      Reports(RecordOutcome(tk, records, total, i).value, tk, Pieces(records, total)[i])
  {
    RangeBetweenCuts(|records|, total, i);
  }

  /** All instances succeed exactly when one instance would succeed on all records. */
  lemma AllSucceedTogether<R>(tk: Toolkit<R>, records: seq<R>, total: nat)
    requires 0 < total
    ensures (forall i :: 0 <= i < total ==> RecordOutcome(tk, records, total, i).Ok?)
      <==> RecordOutcome(tk, records, 1, 0).Ok?
  {
    PiecesPartition(records, total);
    AnalysedPrefix(tk, Pieces(records, total), total);
    SinglePiece(records);
    OutcomeOfPiece(tk, records, 1, 0);
    forall i | 0 <= i < total
      ensures RecordOutcome(tk, records, total, i).Ok? <==> AllAnalysed(tk, Pieces(records, total)[i])
    {
      OutcomeOfPiece(tk, records, total, i);
    }
  }

  lemma MergedCounts<R>(tk: Toolkit<R>, records: seq<R>, reports: seq<ProcessMetrics>)
    requires AreReports(tk, records, reports)
    ensures Total(reports, BytesOf) == Total(records, tk.size)
    ensures Total(reports, LinesOf) == Total(reports, RecordsOf) == |records|
    ensures Total(reports, WordsOf) == Total(records, tk.fields)
    ensures Total(reports, CharactersOf) == Total(records, tk.runes)
  {
    var n, pieces := |reports|, Pieces(records, |reports|);
    forall i | 0 <= i < n
      ensures Reports(reports[i], tk, pieces[i])
    {
      ReportOfPiece(tk, records, reports, i);
    }
    PiecesPartition(records, n);
    TotalOverPieces(pieces, tk.size, reports, BytesOf, n);
    TotalOverPieces(pieces, tk.fields, reports, WordsOf, n);
    TotalOverPieces(pieces, tk.runes, reports, CharactersOf, n);
    LengthOverPieces(pieces, reports, LinesOf, n);
    LengthOverPieces(pieces, reports, RecordsOf, n);
  }

  lemma MergedResults<R>(tk: Toolkit<R>, records: seq<R>, reports: seq<ProcessMetrics>)
    requires AreReports(tk, records, reports)
    ensures MergedSentiment(reports) == SummaryTo(tk, records, |records|)
  {
    var n, pieces := |reports|, Pieces(records, |reports|);
    forall i | 0 <= i < n
      ensures PositivesOf(reports[i]) == BucketTo(tk, pieces[i], |pieces[i]|, PositiveBucket)
      ensures NegativesOf(reports[i]) == BucketTo(tk, pieces[i], |pieces[i]|, NegativeBucket)
      ensures NeutralsOf(reports[i]) == BucketTo(tk, pieces[i], |pieces[i]|, NeutralBucket)
      ensures WeightedScoreOf(reports[i]) == ScoreTo(tk, pieces[i], |pieces[i]|)
    {
      ReportOfPiece(tk, records, reports, i);
      SummaryKeepsResults(reports[i], tk, pieces[i]);
    }
    PiecesPartition(records, n);
    BucketOverPieces(tk, pieces, PositiveBucket, reports, PositivesOf, n);
    BucketOverPieces(tk, pieces, NegativeBucket, reports, NegativesOf, n);
    BucketOverPieces(tk, pieces, NeutralBucket, reports, NeutralsOf, n);
    ScoreOverPieces(tk, pieces, reports, n);
  }

  /** The merged reports are the single instance's report: the same counts and, in exact arithmetic,
      the same sentiment, for every number of instances, even more than there are records. */
  lemma MergedEqualsSingle<R>(tk: Toolkit<R>, records: seq<R>, reports: seq<ProcessMetrics>)
    requires AreReports(tk, records, reports)
    ensures RecordOutcome(tk, records, 1, 0).Ok?
    ensures var single := RecordOutcome(tk, records, 1, 0).value;
      && Total(reports, BytesOf) == single.bytes && Total(reports, LinesOf) == single.lines
      && Total(reports, WordsOf) == single.words && Total(reports, CharactersOf) == single.characters
      && Total(reports, RecordsOf) == single.records
      && MergedSentiment(reports) == single.sentiment
  {
    MergedCounts(tk, records, reports);
    MergedResults(tk, records, reports);
    AllSucceedTogether(tk, records, |reports|);
    SinglePiece(records);
    OutcomeOfPiece(tk, records, 1, 0);
  }

  // ----- What Process returns

  /** The reports of as many calls of Process in RECORD mode, one for each instance. */
  ghost predicate AreRuns(
    tk: Toolkit<seq<Byte>>, extract: seq<Byte> -> seq<seq<Byte>>, data: seq<Byte>, configured: int,
    reports: seq<ProcessMetrics>)
  {
    && |reports| > 0
    && forall i :: 0 <= i < |reports| ==>
         Outcome(tk, extract, Mode.RecordMode, data, configured, |reports|, i) == Ok(reports[i].(seconds := 0.0))
  }

  /** All calls of Process succeed exactly when every record that the input is divided into can be
      analysed, and then a single instance succeeds too. */
  lemma RunsSucceedExactlyWhenAnalysable(
    tk: Toolkit<seq<Byte>>, extract: seq<Byte> -> seq<seq<Byte>>, data: seq<Byte>, configured: int, total: nat)
    requires 0 < total
    ensures (forall i :: 0 <= i < total ==>
               Outcome(tk, extract, Mode.RecordMode, data, configured, total, i).Ok?)
      <==> (forall j :: 0 <= j < |extract(data)| ==> tk.analyze(extract(data)[j]).Analysed?)
    ensures Outcome(tk, extract, Mode.RecordMode, data, configured, 1, 0).Ok?
      <==> (forall j :: 0 <= j < |extract(data)| ==> tk.analyze(extract(data)[j]).Analysed?)
  {
    AllSucceedTogether(tk, extract(data), total);
    SinglePiece(extract(data));
    OutcomeOfPiece(tk, extract(data), 1, 0);
    assert forall i :: Outcome(tk, extract, Mode.RecordMode, data, configured, total, i)
                    == RecordOutcome(tk, extract(data), total, i);
    assert forall j :: 0 <= j < |extract(data)| ==> tk.Analyze(extract(data)[j]) == tk.analyze(extract(data)[j]);
  }

  /** The reports of the calls merge to the report of a single one, and that counts every record of the
      input once: how the work is divided cannot be told from the result. */
  lemma MergedRunsCountEveryRecord(
    tk: Toolkit<seq<Byte>>, extract: seq<Byte> -> seq<seq<Byte>>, data: seq<Byte>, configured: int,
    reports: seq<ProcessMetrics>)
    requires AreRuns(tk, extract, data, configured, reports)
    ensures Outcome(tk, extract, Mode.RecordMode, data, configured, 1, 0).Ok?
    ensures var single, records :=
        Outcome(tk, extract, Mode.RecordMode, data, configured, 1, 0).value, extract(data);
      && Total(reports, BytesOf) == single.bytes == Total(records, tk.size)
      && Total(reports, LinesOf) == single.lines == |records|
      && Total(reports, WordsOf) == single.words == Total(records, tk.fields)
      && Total(reports, CharactersOf) == single.characters == Total(records, tk.runes)
      && Total(reports, RecordsOf) == single.records == |records|
      && MergedSentiment(reports) == single.sentiment == SummaryTo(tk, records, |records|)
      && single.range == ByteRange(0, |records| - 1)
  {
    assert forall i :: 0 <= i < |reports| ==>
      Outcome(tk, extract, Mode.RecordMode, data, configured, |reports|, i)
        == RecordOutcome(tk, extract(data), |reports|, i);
    MergedEqualsSingle(tk, extract(data), reports);
    SinglePiece(extract(data));
    OutcomeOfPiece(tk, extract(data), 1, 0);
  }
}

/** What one instance does with its share of the input: internal/demo/processor.go. */
module Processor {
  import opened Wrappers
  import opened Sums
  import opened Chunker
  import opened Lines
  import opened Sentiment

  /** An analyzer's answer: an error, or a result that may be nil. */
  datatype Analysis = AnalysisError | Analysed(result: Option<RecordSentiment>)

  /** What is asked of a record (or a line): its length in bytes, its numbers of runes and of fields,
      and its sentiment. All but the length are library and provider calls. */
  datatype Toolkit<!R> = Toolkit(
    size: R -> nat,
    runes: R -> nat,
    fields: R -> nat,
    analyze: R -> Analysis)
  {
    function Analyze(record: R): Analysis {
      analyze(record)
    }
  }

  function ResultOf(a: Analysis): Option<RecordSentiment> {
    if a.Analysed? then a.result else None
  }

  datatype Mode = ByteRangeMode | RecordMode

  datatype ProcessError = BadRange(error: ChunkError) | SentimentFailed

  datatype ProcessMetrics = ProcessMetrics(
    range: ByteRange,
    bytes: nat, lines: nat, words: nat, characters: nat, records: nat,
    sentiment: Option<SentimentSummary>,
    seconds: real)

  /** How many of the first n records fall into the bucket. */
  function BucketTo<R>(tk: Toolkit<R>, records: seq<R>, n: nat, bucket: Bucket): nat
    requires n <= |records|
  {
    if n == 0 then 0
    else BucketTo(tk, records, n - 1, bucket) + InBucket(ResultOf(tk.Analyze(records[n - 1])), bucket)
  }

  function ScoreTo<R>(tk: Toolkit<R>, records: seq<R>, n: nat): real
    requires n <= |records|
  {
    if n == 0 then 0.0 else ScoreTo(tk, records, n - 1) + ScoreOf(ResultOf(tk.Analyze(records[n - 1])))
  }

  /** The summary of the results of the first n records. */
  function SummaryTo<R>(tk: Toolkit<R>, records: seq<R>, n: nat): Option<SentimentSummary>
    requires n <= |records|
  {
    Summarise(BucketTo(tk, records, n, PositiveBucket), BucketTo(tk, records, n, NegativeBucket),
              BucketTo(tk, records, n, NeutralBucket), ScoreTo(tk, records, n))
  }

  /** The accumulator holds the results of the first n records. */
  ghost predicate Holds<R>(sentiment: SentimentAccumulator, tk: Toolkit<R>, records: seq<R>, n: nat)
    requires n <= |records|
    reads sentiment
  {
    && sentiment.summary.positive == BucketTo(tk, records, n, PositiveBucket)
    && sentiment.summary.negative == BucketTo(tk, records, n, NegativeBucket)
    && sentiment.summary.neutral == BucketTo(tk, records, n, NeutralBucket)
    && sentiment.totalScore == ScoreTo(tk, records, n)
  }

  predicate AllAnalysed<R>(tk: Toolkit<R>, records: seq<R>) {
    forall i :: 0 <= i < |records| ==> tk.Analyze(records[i]).Analysed?
  }

  lemma {:induction false} ResultsPrefix<R>(tk: Toolkit<R>, a: seq<R>, b: seq<R>, n: nat, bucket: Bucket)
    requires n <= |a|
    ensures BucketTo(tk, a + b, n, bucket) == BucketTo(tk, a, n, bucket)
    ensures ScoreTo(tk, a + b, n) == ScoreTo(tk, a, n)
  {
    if n > 0 {
      ResultsPrefix(tk, a, b, n - 1, bucket);
    }
  }

  lemma {:induction false} ResultsAfter<R>(tk: Toolkit<R>, a: seq<R>, b: seq<R>, n: nat, bucket: Bucket)
    requires n <= |b|
    ensures BucketTo(tk, a + b, |a| + n, bucket) == BucketTo(tk, a, |a|, bucket) + BucketTo(tk, b, n, bucket)
    ensures ScoreTo(tk, a + b, |a| + n) == ScoreTo(tk, a, |a|) + ScoreTo(tk, b, n)
  {
    if n == 0 {
      ResultsPrefix(tk, a, b, |a|, bucket);
    } else {
      ResultsAfter(tk, a, b, n - 1, bucket);
    }
  }

  /** What the instance reports after counting the given records. */
  function Counted<R>(
    tk: Toolkit<R>, range: ByteRange, bytes: nat, records: seq<R>, n: nat,
    sentiment: Option<SentimentSummary>): ProcessMetrics
    requires n <= |records|
  {
    ProcessMetrics(range, bytes, n, SumTo(records, n, tk.fields), SumTo(records, n, tk.runes), n, sentiment, 0.0)
  }

  /** The outcome of counting the given records; any failed analysis is an error. */
  function CountOutcome<R>(
    tk: Toolkit<R>, range: ByteRange, bytes: nat, records: seq<R>): Result<ProcessMetrics, ProcessError>
  {
    if !AllAnalysed(tk, records) then Err(SentimentFailed)
    else Ok(Counted(tk, range, bytes, records, |records|, SummaryTo(tk, records, |records|)))
  }

  /** The outcome of RECORD mode for an instance with the given range of records. */
  function RangeOutcome<R>(tk: Toolkit<R>, records: seq<R>, range: ByteRange): Result<ProcessMetrics, ProcessError> {
    CountOutcome(tk, range, Total(Slice(records, range), tk.size), Slice(records, range))
  }

  function RecordOutcome<R>(
    tk: Toolkit<R>, records: seq<R>, total: int, instance: int): Result<ProcessMetrics, ProcessError>
  {
    var range := Calculate(|records|, total, instance);
    if range.Err? then Err(BadRange(range.error)) else RangeOutcome(tk, records, range.value)
  }

  /** The record loop; `ok` is false when an analysis failed. */
  method CountRange<R>(
    tk: Toolkit<R>, records: seq<R>, range: ByteRange, ghost piece: seq<R>, sentiment: SentimentAccumulator)
    returns (ok: bool, metrics: ProcessMetrics)
    requires 0 <= range.start <= range.end < |records| && |piece| == range.end + 1 - range.start
    requires forall k :: 0 <= k < |piece| ==> piece[k] == records[range.start + k]
    requires Holds(sentiment, tk, [], 0)
    modifies sentiment
    ensures ok <==> AllAnalysed(tk, piece)
    ensures ok ==> Holds(sentiment, tk, piece, |piece|)
    ensures ok ==> metrics == Counted(tk, range, Total(piece, tk.size), piece, |piece|, None)
  {
    metrics := ProcessMetrics(range, 0, 0, 0, 0, 0, None, 0.0);
    ghost var n: nat := 0;
    var i := range.start;
    while i <= range.end
      invariant n <= |piece| && i == range.start + n
      invariant forall k :: 0 <= k < n ==> tk.Analyze(piece[k]).Analysed?
      invariant metrics == Counted(tk, range, SumTo(piece, n, tk.size), piece, n, None)
      invariant Holds(sentiment, tk, piece, n)
    {
      var rec := records[i];
      assert rec == piece[n];
      n := n + 1;
      metrics := metrics.(
        records := metrics.records + 1,
        lines := metrics.lines + 1,
        bytes := metrics.bytes + tk.size(rec),
        characters := metrics.characters + tk.runes(rec),
        words := metrics.words + tk.fields(rec));
      var s := tk.Analyze(rec);
      if s.AnalysisError? {
        return false, metrics;
      }
      sentiment.AddResult(s.result);
      i := i + 1;
    }
    ok := true;
  }

  method ProcessRange<R>(tk: Toolkit<R>, records: seq<R>, range: ByteRange)
    returns (r: Result<ProcessMetrics, ProcessError>)
    requires 0 <= range.start <= range.end < |records|
    ensures r == RangeOutcome(tk, records, range)
  {
    var sentiment := new SentimentAccumulator();
    var ok, metrics := CountRange(tk, records, range, Slice(records, range), sentiment);
    if !ok {
      return Err(SentimentFailed);
    }
    var summary := sentiment.Result();
    return Ok(metrics.(sentiment := summary));
  }

  /** RECORD mode, once the input has been divided into records. */
  method ProcessRecords<R>(tk: Toolkit<R>, records: seq<R>, total: int, instance: int)
    returns (r: Result<ProcessMetrics, ProcessError>)
    ensures r == RecordOutcome(tk, records, total, instance)
  {
    var recordRange := Calculate(|records|, total, instance);
    if recordRange.Err? {
      return Err(BadRange(recordRange.error));
    }
    if recordRange.value.IsEmpty() {
      return Ok(ProcessMetrics(recordRange.value, 0, 0, 0, 0, 0, None, 0.0));
    }
    RangeInBounds(|records|, total, instance);
    r := ProcessRange(tk, records, recordRange.value);
  }

  /** The scan loop over the lines that the reader yields; `ok` is false when an analysis failed. */
  method CountLines<R>(tk: Toolkit<R>, lines: seq<R>, sentiment: SentimentAccumulator)
    returns (ok: bool, lineCount: nat, wordCount: nat, charCount: nat)
    requires Holds(sentiment, tk, [], 0)
    modifies sentiment
    ensures ok <==> AllAnalysed(tk, lines)
    ensures ok ==> Holds(sentiment, tk, lines, |lines|)
    ensures ok ==> lineCount == |lines| && wordCount == Total(lines, tk.fields) && charCount == Total(lines, tk.runes)
  {
    lineCount, wordCount, charCount := 0, 0, 0;
    var i := 0;
    while i < |lines|
      invariant 0 <= i <= |lines|
      invariant forall k :: 0 <= k < i ==> tk.Analyze(lines[k]).Analysed?
      invariant lineCount == i && wordCount == SumTo(lines, i, tk.fields) && charCount == SumTo(lines, i, tk.runes)
      invariant Holds(sentiment, tk, lines, i)
    {
      var line := lines[i];
      i := i + 1;
      lineCount := lineCount + 1;
      charCount := charCount + tk.runes(line);
      wordCount := wordCount + tk.fields(line);
      var s := tk.Analyze(line);
      if s.AnalysisError? {
        return false, lineCount, wordCount, charCount;
      }
      sentiment.AddResult(s.result);
    }
    ok := true;
  }

  method ProcessLines<R>(tk: Toolkit<R>, lines: seq<R>, m: ProcessMetrics)
    returns (r: Result<ProcessMetrics, ProcessError>)
    requires m.seconds == 0.0
    ensures r == CountOutcome(tk, m.range, m.bytes, lines)
  {
    var sentiment := new SentimentAccumulator();
    var ok, lineCount, wordCount, charCount := CountLines(tk, lines, sentiment);
    if !ok {
      return Err(SentimentFailed);
    }
    var summary := sentiment.Result();
    return Ok(m.(
      lines := lineCount, words := wordCount, characters := charCount, records := lineCount,
      sentiment := summary));
  }

  /** The size that BYTE_RANGE mode divides: the configured one, or the file's if that is not set. */
  function InputSize(configured: int, data: seq<Byte>): int {
    if configured > 0 then configured else |data|
  }

  /** The outcome of Process, given the library's division of the input into records. */
  function Outcome(
    tk: Toolkit<seq<Byte>>, extract: seq<Byte> -> seq<seq<Byte>>, mode: Mode, data: seq<Byte>, configured: int,
    total: int,
    instance: int): Result<ProcessMetrics, ProcessError>
  {
    if mode.RecordMode? then RecordOutcome(tk, extract(data), total, instance)
    else
      var range := Calculate(InputSize(configured, data), total, instance);
      if range.Err? then Err(BadRange(range.error))
      else CountOutcome(tk, range.value, range.value.Size(), ScanLines(Slice(data, range.value)))
  }

  /** How much there is to divide: records, or bytes of the configured size. */
  function WorkOf(extract: seq<Byte> -> seq<seq<Byte>>, mode: Mode, data: seq<Byte>, configured: int): nat {
    if mode == RecordMode then |extract(data)| else if configured > 0 then configured else |data|
  }

  /** In both modes: an instance outside 0..total - 1 is refused, and no other is refused for its number;
      one that succeeds reports its own range, and has been given its fair share of the work. */
  lemma ShareExactlyForValidInstance(
    tk: Toolkit<seq<Byte>>, extract: seq<Byte> -> seq<seq<Byte>>, mode: Mode, data: seq<Byte>, configured: int,
    total: int, instance: int)
    ensures var r := Outcome(tk, extract, mode, data, configured, total, instance);
      var work := WorkOf(extract, mode, data, configured);
      && (r == Err(BadRange(NegativeInstance)) <==> instance < 0)
      && (r == Err(BadRange(InstanceTooLarge)) <==> 0 <= instance && total <= instance)
      && (0 <= instance < total ==> r.Ok? || r == Err(SentimentFailed))
      && (r.Ok? ==>
            && 0 <= instance < total
            && Calculate(work, total, instance) == Ok(r.value.range)
            && r.value.range.Size() == work / total + (if instance < work % total then 1 else 0)
            && (if mode == RecordMode then r.value.records else r.value.bytes) == r.value.range.Size())
  {
    var work := WorkOf(extract, mode, data, configured);
    if 0 <= instance < total {
      FairShares(work, total, instance);
      RangeBetweenCuts(work, total, instance);
    }
  }

  method Process(
    tk: Toolkit<seq<Byte>>, extract: seq<Byte> -> seq<seq<Byte>>, mode: Mode, data: seq<Byte>, configured: int,
    total: int,
    instance: int) returns (r: Result<ProcessMetrics, ProcessError>)
    ensures r == Outcome(tk, extract, mode, data, configured, total, instance)
  {
    if mode.RecordMode? {
      r := ProcessRecords(tk, extract(data), total, instance);
      return;
    }
    var byteRange := Calculate(InputSize(configured, data), total, instance);
    if byteRange.Err? {
      return Err(BadRange(byteRange.error));
    }
    var range := byteRange.value;
    var metrics := ProcessMetrics(range, range.Size(), 0, 0, 0, 0, None, 0.0);
    if range.IsEmpty() {
      return Ok(metrics);
    }
    r := ProcessLines(tk, ScanLines(Slice(data, range)), metrics);
  }
}

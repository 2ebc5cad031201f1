/** BYTE_RANGE mode: the ranges may cut through lines, words and line ends, so the merged counts
    differ from a single instance's, by exactly the number of cuts that do so
    (internal/demo/processor.go with internal/demo/metrics.go). */
module ByteRangeMode {
  import opened Wrappers
  import opened Runs
  import opened Sums
  import opened Splits
  import opened Chunker
  import opened Lines
  import opened Processor
  import opened Metrics

  /** What the instances report: all succeed, and each takes as long as it takes. */
  ghost predicate AreReports(
    tk: Toolkit<seq<Byte>>, extract: seq<Byte> -> seq<seq<Byte>>, data: seq<Byte>, configured: int,
    reports: seq<ProcessMetrics>)
  {
    && |reports| > 0
    && forall i :: 0 <= i < |reports| ==>
         Outcome(tk, extract, ByteRangeMode, data, configured, |reports|, i) == Ok(reports[i].(seconds := 0.0))
  }

  // ----- Bad seams

  /** A cut inside a line. */
  function CutsLine(before: Byte, after: Byte): bool {
    before != LF
  }

  /** A cut inside a word. */
  function CutsWord(before: Byte, after: Byte): bool {
    !IsSpace(before) && !IsSpace(after)
  }

  /** A cut after a carriage return that does not end a line: it is dropped as if it did. */
  function CutsAfterCR(before: Byte, after: Byte): bool {
    before == CR && after != LF
  }

  function BadSeams(data: seq<Byte>, total: nat, bad: (Byte, Byte) -> bool): set<nat>
    requires 0 < total
  {
    Seams(data, CutsOf(|data|, total), bad, total)
  }

  // ----- How the counts of a text split

  function LineCount(data: seq<Byte>): int {
    |ScanLines(data)|
  }

  function WordCount(data: seq<Byte>): int {
    LineSum(data, Words)
  }

  function MissingCharacters(data: seq<Byte>): int {
    -(LineSum(data, Length) as int)
  }

  lemma LineCountSplits()
    ensures SplitsAt(LineCount, CutsLine)
  {
    forall a: seq<Byte>, b: seq<Byte> | a != [] && b != []
      ensures LineCount(a + b) == LineCount(a) + LineCount(b) - if CutsLine(a[|a| - 1], b[0]) then 1 else 0
    {
      LinesCounted(a);
      LinesCounted(b);
      LinesCounted(a + b);
      LineFeedsJoin(a, b);
    }
  }

  lemma WordCountSplits()
    ensures SplitsAt(WordCount, CutsWord)
  {
    forall a: seq<Byte>, b: seq<Byte> | a != [] && b != []
      ensures WordCount(a + b) == WordCount(a) + WordCount(b) - if CutsWord(a[|a| - 1], b[0]) then 1 else 0
    {
      WordsLineByLine(a);
      WordsLineByLine(b);
      WordsLineByLine(a + b);
      CountJoin(a, b, b => !IsSpace(b));
    }
  }

  lemma MissingCharactersSplit()
    ensures SplitsAt(MissingCharacters, CutsAfterCR)
  {
    forall a: seq<Byte>, b: seq<Byte> | a != [] && b != []
      ensures MissingCharacters(a + b)
           == MissingCharacters(a) + MissingCharacters(b) - if CutsAfterCR(a[|a| - 1], b[0]) then 1 else 0
    {
      LengthsLineByLine(a);
      LengthsLineByLine(b);
      LengthsLineByLine(a + b);
      LineFeedsJoin(a, b);
      DroppedCRsJoin(a, b);
    }
  }

  // ----- Adding up the reports

  /** If each report gives the measure of its piece, or its negative, so does their sum. */
  lemma {:induction false} MeasureOverPieces(
    pieces: seq<seq<Byte>>, measure: seq<Byte> -> int, sign: int, reports: seq<ProcessMetrics>,
    field: ProcessMetrics -> nat, n: nat)
    requires n <= |pieces| == |reports| && (sign == 1 || sign == -1)
    requires forall i :: 0 <= i < n ==> field(reports[i]) == sign * measure(pieces[i])
    ensures SumTo(reports, n, field) == sign * SumOfPieces(pieces, measure, n)
  {
    if n > 0 {
      MeasureOverPieces(pieces, measure, sign, reports, field, n - 1);
    }
  }

  lemma ReportOfPiece(
    tk: Toolkit<seq<Byte>>, extract: seq<Byte> -> seq<seq<Byte>>, data: seq<Byte>, configured: int,
    reports: seq<ProcessMetrics>, i: nat)
    requires AreReports(tk, extract, data, configured, reports) && i < |reports|
    requires InputSize(configured, data) == |data|
    ensures var piece := Pieces(data, |reports|)[i];
      && reports[i].bytes == |piece|
      && reports[i].lines == reports[i].records == LineCount(piece)
      && reports[i].words == LineSum(piece, tk.fields)
      && reports[i].characters == LineSum(piece, tk.runes)
  {
    RangeBetweenCuts(|data|, |reports|, i);
    PiecesBetweenCuts(data, |reports|);
    assert Outcome(tk, extract, ByteRangeMode, data, configured, |reports|, i) == Ok(reports[i].(seconds := 0.0));
  }

  lemma SingleReport(
    tk: Toolkit<seq<Byte>>, extract: seq<Byte> -> seq<seq<Byte>>, data: seq<Byte>, configured: int,
    single: ProcessMetrics)
    requires Outcome(tk, extract, ByteRangeMode, data, configured, 1, 0) == Ok(single)
    requires InputSize(configured, data) == |data|
    ensures single.bytes == |data| && single.lines == single.records == LineCount(data)
    ensures single.words == LineSum(data, tk.fields) && single.characters == LineSum(data, tk.runes)
  {
    assert single.seconds == 0.0;
    ReportOfPiece(tk, extract, data, configured, [single], 0);
    SinglePiece(data);
  }

  // ----- Main results

  /** The bytes add up exactly; the lines (and records) are over-counted by the number of non-empty
      ranges that end inside a line before the end of the file, at most one less than there are instances. */
  lemma LinesOverCounted(
    tk: Toolkit<seq<Byte>>, extract: seq<Byte> -> seq<seq<Byte>>, data: seq<Byte>, configured: int,
    reports: seq<ProcessMetrics>, single: ProcessMetrics)
    requires InputSize(configured, data) == |data| && AreReports(tk, extract, data, configured, reports)
    requires Outcome(tk, extract, ByteRangeMode, data, configured, 1, 0) == Ok(single)
    ensures Total(reports, BytesOf) == single.bytes == |data|
    ensures single.lines == single.records == |ScanLines(data)|
    ensures Total(reports, LinesOf) == single.lines + |BadSeams(data, |reports|, CutsLine)|
    ensures Total(reports, RecordsOf) == Total(reports, LinesOf)
    ensures |BadSeams(data, |reports|, CutsLine)| < |reports|
  {
    var n, pieces := |reports|, Pieces(data, |reports|);
    forall i | 0 <= i < n
      ensures BytesOf(reports[i]) == |pieces[i]|
      ensures LinesOf(reports[i]) == RecordsOf(reports[i]) == LineCount(pieces[i])
    {
      ReportOfPiece(tk, extract, data, configured, reports, i);
    }
    MeasureOverPieces(pieces, LineCount, 1, reports, LinesOf, n);
    MeasureOverPieces(pieces, LineCount, 1, reports, RecordsOf, n);
    LineCountSplits();
    PiecesBetweenCuts(data, n);
    ErrorOfSplitting(data, CutsOf(|data|, n), pieces, LineCount, CutsLine);
    LengthsOverPieces(pieces, reports, n);
    PiecesPartition(data, n);
    SingleReport(tk, extract, data, configured, single);
  }

  lemma {:induction false} SharesTelescope(cuts: seq<nat>, reports: seq<ProcessMetrics>, n: nat)
    requires n <= |reports| == |cuts| - 1 && cuts[0] == 0
    requires forall i :: 0 <= i < |reports| ==> cuts[i] + BytesOf(reports[i]) == cuts[i + 1]
    ensures SumTo(reports, n, BytesOf) == cuts[n]
  {
    if n > 0 {
      SharesTelescope(cuts, reports, n - 1);
    }
  }

  /** Whatever size is configured, the bytes reported add up to it; to the file's if none is. */
  lemma BytesAddUpToInputSize(
    tk: Toolkit<seq<Byte>>, extract: seq<Byte> -> seq<seq<Byte>>, data: seq<Byte>, configured: int,
    reports: seq<ProcessMetrics>)
    requires AreReports(tk, extract, data, configured, reports)
    ensures Total(reports, BytesOf) == if configured > 0 then configured else |data|
  {
    var size, n := InputSize(configured, data), |reports|;
    var cuts := CutsOf(size, n);
    CutsPartition(size, n);
    forall i | 0 <= i < n
      ensures cuts[i] + BytesOf(reports[i]) == cuts[i + 1]
    {
      RangeBetweenCuts(size, n, i);
      assert Outcome(tk, extract, ByteRangeMode, data, configured, n, i) == Ok(reports[i].(seconds := 0.0));
    }
    SharesTelescope(cuts, reports, n);
  }

  lemma {:induction false} LengthsOverPieces(pieces: seq<seq<Byte>>, reports: seq<ProcessMetrics>, n: nat)
    requires n <= |pieces| == |reports|
    requires forall i :: 0 <= i < n ==> BytesOf(reports[i]) == |pieces[i]|
    ensures SumTo(reports, n, BytesOf) == |Joined(pieces, n)|
  {
    if n > 0 {
      LengthsOverPieces(pieces, reports, n - 1);
    }
  }

  // ----- ASCII input

  /** On ASCII text the libraries count words as Words does, and every byte is a rune. */
  ghost predicate CountsAscii(tk: Toolkit<seq<Byte>>) {
    && (forall line {:trigger tk.fields(line)} :: IsAscii(line) ==> tk.fields(line) == Words(line))
    && (forall line {:trigger tk.runes(line)} :: IsAscii(line) ==> tk.runes(line) == |line|)
  }

  lemma {:induction false} AsciiLines(data: seq<Byte>)
    requires IsAscii(data)
    ensures forall i :: 0 <= i < |ScanLines(data)| ==> IsAscii(ScanLines(data)[i])
    decreases |data|
  {
    if data != [] && FirstLF(data) < |data| {
      AsciiLines(data[FirstLF(data) + 1..]);
    }
  }

  lemma {:induction false} SumsAgree<T>(items: seq<T>, n: nat, f: T -> nat, g: T -> nat)
    requires n <= |items| && forall i :: 0 <= i < |items| ==> f(items[i]) == g(items[i])
    ensures SumTo(items, n, f) == SumTo(items, n, g)
  {
    if n > 0 {
      SumsAgree(items, n - 1, f, g);
    }
  }

  lemma AsciiCounts(tk: Toolkit<seq<Byte>>, data: seq<Byte>)
    requires CountsAscii(tk) && IsAscii(data)
    ensures LineSum(data, tk.fields) == WordCount(data) && LineSum(data, tk.runes) == -MissingCharacters(data)
  {
    var lines := ScanLines(data);
    AsciiLines(data);
    SumsAgree(lines, |lines|, tk.fields, Words);
    SumsAgree(lines, |lines|, tk.runes, Length);
  }

  /** For ASCII input, words are over-counted by the number of cuts inside a word. */
  lemma WordsOverCounted(
    tk: Toolkit<seq<Byte>>, extract: seq<Byte> -> seq<seq<Byte>>, data: seq<Byte>, configured: int,
    reports: seq<ProcessMetrics>, single: ProcessMetrics)
    requires CountsAscii(tk) && IsAscii(data)
    requires InputSize(configured, data) == |data| && AreReports(tk, extract, data, configured, reports)
    requires Outcome(tk, extract, ByteRangeMode, data, configured, 1, 0) == Ok(single)
    ensures Total(reports, WordsOf) == single.words + |BadSeams(data, |reports|, CutsWord)|
    ensures single.words == |WordStarts(data)|
  {
    var n, pieces := |reports|, Pieces(data, |reports|);
    PiecesBetweenCuts(data, n);
    forall i | 0 <= i < n
      ensures WordsOf(reports[i]) == WordCount(pieces[i])
    {
      ReportOfPiece(tk, extract, data, configured, reports, i);
      AsciiCounts(tk, pieces[i]);
    }
    MeasureOverPieces(pieces, WordCount, 1, reports, WordsOf, n);
    WordCountSplits();
    ErrorOfSplitting(data, CutsOf(|data|, n), pieces, WordCount, CutsWord);
    SingleReport(tk, extract, data, configured, single);
    AsciiCounts(tk, data);
    WordsLineByLine(data);
    WordsCountTheirStarts(data);
  }

  /** For ASCII input, a single instance counts every character that is not a line feed or a carriage
      return dropped at the end of a line. */
  lemma CharactersOfSingle(
    tk: Toolkit<seq<Byte>>, extract: seq<Byte> -> seq<seq<Byte>>, data: seq<Byte>, configured: int,
    single: ProcessMetrics)
    requires CountsAscii(tk) && IsAscii(data) && InputSize(configured, data) == |data|
    requires Outcome(tk, extract, ByteRangeMode, data, configured, 1, 0) == Ok(single)
    ensures single.characters == |data| - LineFeeds(data) - DroppedCRs(data)
  {
    SingleReport(tk, extract, data, configured, single);
    AsciiCounts(tk, data);
    LengthsLineByLine(data);
  }

  /** For ASCII input, characters are under-counted by the number of cuts after a carriage return that
      does not end a line. */
  lemma CharactersUnderCounted(
    tk: Toolkit<seq<Byte>>, extract: seq<Byte> -> seq<seq<Byte>>, data: seq<Byte>, configured: int,
    reports: seq<ProcessMetrics>, single: ProcessMetrics)
    requires CountsAscii(tk) && IsAscii(data)
    requires InputSize(configured, data) == |data| && AreReports(tk, extract, data, configured, reports)
    requires Outcome(tk, extract, ByteRangeMode, data, configured, 1, 0) == Ok(single)
    ensures Total(reports, CharactersOf) == single.characters - |BadSeams(data, |reports|, CutsAfterCR)|
  {
    var n, pieces := |reports|, Pieces(data, |reports|);
    PiecesBetweenCuts(data, n);
    forall i | 0 <= i < n
      ensures CharactersOf(reports[i]) == -MissingCharacters(pieces[i])
    {
      ReportOfPiece(tk, extract, data, configured, reports, i);
      AsciiCounts(tk, pieces[i]);
    }
    MeasureOverPieces(pieces, MissingCharacters, -1, reports, CharactersOf, n);
    MissingCharactersSplit();
    ErrorOfSplitting(data, CutsOf(|data|, n), pieces, MissingCharacters, CutsAfterCR);
    SingleReport(tk, extract, data, configured, single);
    AsciiCounts(tk, data);
  }
}

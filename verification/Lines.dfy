/** Scanning bytes into lines, and counting in them: bufio.ScanLines and, for ASCII,
    strings.Fields and the number of runes, as internal/demo/processor.go uses them. */
module Lines {
  import opened Runs
  import opened Sums

  type Byte = b: nat | b < 256

  const LF: Byte := 10
  const CR: Byte := 13

  predicate IsAscii(data: seq<Byte>) {
    forall i :: 0 <= i < |data| ==> data[i] < 128
  }

  /** The ASCII white space of strings.Fields: tab, line feed, vertical tab, form feed, return, space. */
  predicate IsSpace(b: Byte) {
    9 <= b <= 13 || b == 32
  }

  /** The number of fields of an ASCII text. */
  function Words(text: seq<Byte>): nat {
    Count(text, b => !IsSpace(b))
  }

  /** Drops one carriage return at the end. */
  function DropCR(line: seq<Byte>): (r: seq<Byte>)
    ensures line == r || line == r + [13]
    ensures line == r ==> line == [] || line[|line| - 1] != 13
  {
    if line != [] && line[|line| - 1] == CR then line[..|line| - 1] else line
  }

  /** The position of the first line feed at or after i, |data| if there is none. */
  function LFFrom(data: seq<Byte>, i: nat): (r: nat)
    requires i <= |data|
    ensures i <= r <= |data| && forall j :: i <= j < r ==> data[j] != LF
    ensures r < |data| ==> data[r] == LF
    decreases |data| - i
  {
    if i == |data| || data[i] == LF then i else LFFrom(data, i + 1)
  }

  function FirstLF(data: seq<Byte>): (i: nat)
    ensures i <= |data| && LF !in data[..i]
    ensures i < |data| ==> data[i] == LF
  {
    LFFrom(data, 0)
  }

  /** The tokens of bufio.ScanLines: a last line without line feed counts if it is not empty. */
  function ScanLines(data: seq<Byte>): seq<seq<Byte>>
    decreases |data|
  {
    if data == [] then []
    else
      var i := FirstLF(data);
      if i == |data| then [DropCR(data)] else [DropCR(data[..i])] + ScanLines(data[i + 1..])
  }

  /** The sum of f over the lines of a text. */
  function LineSum(data: seq<Byte>, f: seq<Byte> -> nat): nat {
    Total(ScanLines(data), f)
  }

  /** A sum over the lines is the first line's share and the rest's. */
  lemma LineSumSteps(data: seq<Byte>, f: seq<Byte> -> nat)
    requires data != []
    ensures var i := FirstLF(data);
      LineSum(data, f) == f(DropCR(data[..i])) + if i == |data| then 0 else LineSum(data[i + 1..], f)
  {
    var i := FirstLF(data);
    if i == |data| {
      assert data[..i] == data;
      TotalOne(DropCR(data[..i]), f);
    } else {
      TotalCons(DropCR(data[..i]), ScanLines(data[i + 1..]), f);
    }
  }

  // ----- Lines and words without their loops

  /** The lines, each with a line feed after it. */
  function Terminated(lines: seq<seq<Byte>>): seq<Byte> {
    if lines == [] then [] else lines[0] + [10] + Terminated(lines[1..])
  }

  function Dropped(lines: seq<seq<Byte>>): seq<seq<Byte>> {
    seq(|lines|, i requires 0 <= i < |lines| => DropCR(lines[i]))
  }

  predicate OneLine(line: seq<Byte>) {
    forall i :: 0 <= i < |line| ==> line[i] != 10
  }

  lemma OneLineMore(line: seq<Byte>, lines: seq<seq<Byte>>, rest: seq<Byte>)
    ensures Terminated([line] + lines) + rest == line + [10] + (Terminated(lines) + rest)
    ensures Dropped([line] + lines) == [DropCR(line)] + Dropped(lines)
  {
    var all := [line] + lines;
    assert all[1..] == lines;
    assert line + [10] + Terminated(lines) + rest == line + [10] + (Terminated(lines) + rest);
  }

  /** Every text is a number of terminated lines and a rest without line feed, and scanning gives back
      just these, the rest only if there is one, each less a carriage return at its end. */
  lemma {:induction false} ScanningGivesBackTheLines(data: seq<Byte>) returns (lines: seq<seq<Byte>>, rest: seq<Byte>)
    ensures data == Terminated(lines) + rest
    ensures OneLine(rest) && forall i :: 0 <= i < |lines| ==> OneLine(lines[i])
    ensures ScanLines(data) == Dropped(lines) + if rest == [] then [] else [DropCR(rest)]
    decreases |data|
  {
    var i := FirstLF(data);
    if i == |data| {
      lines, rest := [], data;
    } else {
      SplitFirstLine(data);
      lines, rest := ScanningGivesBackTheLines(data[i + 1..]);
      OneLineMore(data[..i], lines, rest);
      lines := [data[..i]] + lines;
    }
  }

  /** Tab, line feed, vertical tab, form feed, carriage return or space. */
  predicate White(b: Byte) {
    b == 9 || b == 10 || b == 11 || b == 12 || b == 13 || b == 32
  }

  /** A word begins where there is no white space, but white space or nothing before it. */
  predicate WordBegins(text: seq<Byte>, i: nat)
    requires i < |text|
  {
    !White(text[i]) && (i == 0 || White(text[i - 1]))
  }

  function WordStarts(text: seq<Byte>): set<nat> {
    set i | 0 <= i < |text| && WordBegins(text, i)
  }

  lemma StartsGrow(init: seq<Byte>, last: Byte)
    ensures WordStarts(init + [last])
         == WordStarts(init) + if WordBegins(init + [last], |init|) then {|init|} else {}
  {
    forall i | 0 <= i < |init|
      ensures WordBegins(init + [last], i) <==> WordBegins(init, i)
    {
    }
  }

  lemma {:induction false} WordsCountTheirStarts(text: seq<Byte>)
    ensures Words(text) == |WordStarts(text)|
  {
    if text != [] {
      var init, last := text[..|text| - 1], text[|text| - 1];
      WordsCountTheirStarts(init);
      assert text == init + [last];
      CountSnoc(init, last, b => !IsSpace(b));
      StartsGrow(init, last);
    }
  }

  lemma {:induction false} LineFeedsCounted(data: seq<Byte>)
    ensures LineFeeds(data) == |set i | 0 <= i < |data| && data[i] == 10|
  {
    if data != [] {
      var n := |data| - 1;
      LineFeedsCounted(data[..n]);
      assert (set i | 0 <= i < |data| && data[i] == 10)
        == (set i | 0 <= i < n && data[..n][i] == 10) + if data[n] == 10 then {n} else {};
    }
  }

  // ----- Closed forms over the bytes

  function LineFeeds(data: seq<Byte>): nat {
    if data == [] then 0 else LineFeeds(data[..|data| - 1]) + if data[|data| - 1] == LF then 1 else 0
  }

  lemma {:induction false} LineFeedsJoin(a: seq<Byte>, b: seq<Byte>)
    ensures LineFeeds(a + b) == LineFeeds(a) + LineFeeds(b)
  {
    if b == [] {
      assert a + b == a;
    } else {
      LineFeedsJoin(a, b[..|b| - 1]);
      assert (a + b)[..|a + b| - 1] == a + b[..|b| - 1];
    }
  }

  lemma {:induction false} NoLineFeeds(data: seq<Byte>)
    requires LF !in data
    ensures LineFeeds(data) == 0
  {
    if data != [] {
      NoLineFeeds(data[..|data| - 1]);
    }
  }

  lemma CutAt<T>(data: seq<T>, i: nat)
    requires i < |data|
    ensures data == data[..i] + [data[i]] + data[i + 1..]
  {
  }

  /** The first line, its line feed, and the rest. */
  lemma SplitFirstLine(data: seq<Byte>)
    requires FirstLF(data) < |data|
    ensures data == data[..FirstLF(data)] + [LF] + data[FirstLF(data) + 1..]
  {
    CutAt(data, FirstLF(data));
  }

  lemma {:induction false} LinesCounted(data: seq<Byte>)
    ensures |ScanLines(data)| == LineFeeds(data) + if data != [] && data[|data| - 1] != LF then 1 else 0
    decreases |data|
  {
    if data != [] {
      var i := FirstLF(data);
      NoLineFeeds(data[..i]);
      if i == |data| {
        assert data[..i] == data;
      } else {
        SplitFirstLine(data);
        LineFeedsJoin(data[..i] + [LF], data[i + 1..]);
        LineFeedsJoin(data[..i], [LF]);
        assert LineFeeds([LF]) == LineFeeds([]) + 1;
        LinesCounted(data[i + 1..]);
      }
    }
  }

  /** Words never reach across a line end, so counting line by line counts them all. */
  lemma {:induction false} WordsLineByLine(data: seq<Byte>)
    ensures LineSum(data, Words) == Words(data)
    decreases |data|
  {
    if data != [] {
      var i := FirstLF(data);
      LineSumSteps(data, Words);
      WordsWithoutCR(data[..i]);
      if i == |data| {
        assert data[..i] == data;
      } else {
        SplitFirstLine(data);
        WordsAcrossLF(data[..i], data[i + 1..]);
        WordsLineByLine(data[i + 1..]);
      }
    }
  }

  lemma WordsWithoutCR(line: seq<Byte>)
    ensures Words(DropCR(line)) == Words(line)
  {
    if DropCR(line) != line {
      assert line == DropCR(line) + [CR];
      CountSnoc(DropCR(line), CR, b => !IsSpace(b));
    }
  }

  lemma WordsAcrossLF(a: seq<Byte>, b: seq<Byte>)
    ensures Words(a + [LF] + b) == Words(a) + Words(b)
  {
    CountSnoc(a, LF, b => !IsSpace(b));
    CountJoin(a + [LF], b, b => !IsSpace(b));
  }

  /** The carriage returns that ScanLines drops: those at the end of a line or of the data. */
  function DroppedCRs(data: seq<Byte>): nat {
    if data == [] then 0
    else (if data[0] == CR && (|data| == 1 || data[1] == LF) then 1 else 0) + DroppedCRs(data[1..])
  }

  lemma {:induction false} DroppedCRsJoin(a: seq<Byte>, b: seq<Byte>)
    requires a != [] && b != []
    ensures DroppedCRs(a + b) == DroppedCRs(a) + DroppedCRs(b) - if a[|a| - 1] == CR && b[0] != LF then 1 else 0
  {
    assert (a + b)[1..] == a[1..] + b;
    if |a| == 1 {
      assert (a + b)[1..] == b;
      assert DroppedCRs(a[1..]) == 0;
    } else {
      DroppedCRsJoin(a[1..], b);
    }
  }

  lemma {:induction false} DroppedInLine(line: seq<Byte>)
    requires LF !in line
    ensures DroppedCRs(line) == |line| - |DropCR(line)|
  {
    if |line| > 1 {
      DroppedInLine(line[1..]);
    }
  }

  function Length(line: seq<Byte>): nat {
    |line|
  }

  lemma {:induction false} LengthsLineByLine(data: seq<Byte>)
    ensures LineSum(data, Length) == |data| - LineFeeds(data) - DroppedCRs(data)
    decreases |data|
  {
    if data != [] {
      var i := FirstLF(data);
      LineSumSteps(data, Length);
      NoLineFeeds(data[..i]);
      DroppedInLine(data[..i]);
      if i == |data| {
        assert data[..i] == data;
      } else {
        SplitFirstLine(data);
        LineFeedsJoin(data[..i] + [LF], data[i + 1..]);
        LineFeedsJoin(data[..i], [LF]);
        assert LineFeeds([LF]) == LineFeeds([]) + 1;
        DroppedAcrossLF(data[..i], data[i + 1..]);
        LengthsLineByLine(data[i + 1..]);
      }
    }
  }

  lemma DroppedAcrossLF(a: seq<Byte>, b: seq<Byte>)
    ensures DroppedCRs(a + [LF] + b) == DroppedCRs(a) + DroppedCRs(b)
  {
    assert DroppedCRs([LF]) == DroppedCRs([LF][1..]);
    if a != [] {
      DroppedCRsJoin(a, [LF]);
    } else {
      assert a + [LF] == [LF];
    }
    if b != [] {
      DroppedCRsJoin(a + [LF], b);
    } else {
      assert a + [LF] + b == a + [LF];
    }
  }
}

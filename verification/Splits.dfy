/** Cutting a sequence into consecutive pieces, and how far a measure of the pieces, summed, is from
    the measure of the whole. */
module Splits {
  /** Cut positions of a sequence of the given size, from 0 to its end; no piece is empty before the end is reached. */
  ghost predicate AreCuts(cuts: seq<nat>, size: nat) {
    && |cuts| > 1 && cuts[0] == 0 && cuts[|cuts| - 1] == size
    && (forall i :: 0 <= i < |cuts| ==> cuts[i] <= size)
    && (forall i :: 0 <= i < |cuts| - 1 ==> if cuts[i] < size then cuts[i] < cuts[i + 1] else cuts[i + 1] == size)
  }

  function PieceOf<T>(data: seq<T>, cuts: seq<nat>, i: nat): seq<T>
    requires i + 1 < |cuts| && cuts[i] <= cuts[i + 1] <= |data|
  {
    data[cuts[i]..cuts[i + 1]]
  }

  function Joined<T>(pieces: seq<seq<T>>, n: nat): seq<T>
    requires n <= |pieces|
  {
    if n == 0 then [] else Joined(pieces, n - 1) + pieces[n - 1]
  }

  lemma {:induction false} JoinedIsPrefix<T>(data: seq<T>, cuts: seq<nat>, pieces: seq<seq<T>>, n: nat)
    requires AreCuts(cuts, |data|) && |pieces| == |cuts| - 1 && n <= |pieces|
    requires forall i :: 0 <= i < |pieces| ==> pieces[i] == PieceOf(data, cuts, i)
    ensures Joined(pieces, n) == data[..cuts[n]]
  {
    if n > 0 {
      JoinedIsPrefix(data, cuts, pieces, n - 1);
      assert data[..cuts[n]] == data[..cuts[n - 1]] + data[cuts[n - 1]..cuts[n]];
    }
  }

  /** A measure whose value on a concatenation of two non-empty sequences is less than the sum by one
      exactly when the two elements at the seam are bad neighbours. */
  ghost predicate SplitsAt<T(!new)>(measure: seq<T> -> int, bad: (T, T) -> bool) {
    && measure([]) == 0
    && forall a: seq<T>, b: seq<T> {:trigger measure(a + b)} :: a != [] && b != [] ==>
         measure(a + b) == measure(a) + measure(b) - if bad(a[|a| - 1], b[0]) then 1 else 0
  }

  function SumOfPieces<T>(pieces: seq<seq<T>>, measure: seq<T> -> int, n: nat): int
    requires n <= |pieces|
  {
    if n == 0 then 0 else SumOfPieces(pieces, measure, n - 1) + measure(pieces[n - 1])
  }

  predicate IsSeam<T>(data: seq<T>, cuts: seq<nat>, bad: (T, T) -> bool, i: nat)
    requires i + 1 < |cuts|
  {
    cuts[i] < cuts[i + 1] < |data| && bad(data[cuts[i + 1] - 1], data[cuts[i + 1]])
  }

  /** The non-empty pieces among the first n that end, before the end of the data, in a bad seam. */
  function Seams<T>(data: seq<T>, cuts: seq<nat>, bad: (T, T) -> bool, n: nat): set<nat>
    requires n < |cuts|
  {
    set i | 0 <= i < n && IsSeam(data, cuts, bad, i)
  }

  lemma SeamsNext<T>(data: seq<T>, cuts: seq<nat>, bad: (T, T) -> bool, n: nat)
    requires n + 1 < |cuts|
    ensures |Seams(data, cuts, bad, n + 1)| == |Seams(data, cuts, bad, n)| + if IsSeam(data, cuts, bad, n) then 1 else 0
  {
    var before := Seams(data, cuts, bad, n);
    assert Seams(data, cuts, bad, n + 1) == if IsSeam(data, cuts, bad, n) then before + {n} else before;
  }

  lemma {:induction false} SeamsAtMost<T>(data: seq<T>, cuts: seq<nat>, bad: (T, T) -> bool, n: nat)
    requires n < |cuts|
    ensures |Seams(data, cuts, bad, n)| <= n
  {
    if n > 0 {
      SeamsAtMost(data, cuts, bad, n - 1);
      SeamsNext(data, cuts, bad, n - 1);
    }
  }

  /** The last cut is the end of the data, so no seam. */
  lemma FewerSeamsThanPieces<T>(data: seq<T>, cuts: seq<nat>, bad: (T, T) -> bool, n: nat)
    requires |cuts| == n + 2 && cuts[n + 1] == |data|
    ensures Seams(data, cuts, bad, n + 1) == Seams(data, cuts, bad, n)
    ensures |Seams(data, cuts, bad, n)| <= n
  {
    assert !IsSeam(data, cuts, bad, n);
    SeamsAtMost(data, cuts, bad, n);
  }

  lemma {:induction false} ErrorOfPrefix<T(!new)>(
    data: seq<T>, cuts: seq<nat>, pieces: seq<seq<T>>, measure: seq<T> -> int, bad: (T, T) -> bool, n: nat)
    requires AreCuts(cuts, |data|) && |pieces| == |cuts| - 1 && 0 < n <= |pieces|
    requires forall i :: 0 <= i < |pieces| ==> pieces[i] == PieceOf(data, cuts, i)
    requires SplitsAt(measure, bad)
    ensures SumOfPieces(pieces, measure, n) == measure(data[..cuts[n]]) + |Seams(data, cuts, bad, n - 1)|
  {
    var lo, hi := cuts[n - 1], cuts[n];
    if n == 1 {
      assert pieces[0] == data[..hi];
    } else {
      ErrorOfPrefix(data, cuts, pieces, measure, bad, n - 1);
      SeamsNext(data, cuts, bad, n - 2);
      assert cuts[n - 2] < lo || lo == |data|;
      if lo == |data| {
        assert pieces[n - 1] == [];
      } else {
        var a, b := data[..lo], data[lo..hi];
        assert a + b == data[..hi];
        assert a[|a| - 1] == data[lo - 1] && b[0] == data[lo];
      }
    }
  }

  /** Summed over all pieces, the measure exceeds that of the whole by exactly the number of bad
      seams, and there are fewer of them than pieces. */
  lemma ErrorOfSplitting<T(!new)>(
    data: seq<T>, cuts: seq<nat>, pieces: seq<seq<T>>, measure: seq<T> -> int, bad: (T, T) -> bool)
    requires AreCuts(cuts, |data|) && |pieces| == |cuts| - 1
    requires forall i :: 0 <= i < |pieces| ==> pieces[i] == PieceOf(data, cuts, i)
    requires SplitsAt(measure, bad)
    ensures SumOfPieces(pieces, measure, |pieces|) == measure(data) + |Seams(data, cuts, bad, |pieces|)|
    ensures |Seams(data, cuts, bad, |pieces|)| < |pieces|
  {
    ErrorOfPrefix(data, cuts, pieces, measure, bad, |pieces|);
    FewerSeamsThanPieces(data, cuts, bad, |pieces| - 1);
    assert data[..|data|] == data;
  }
}

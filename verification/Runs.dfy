/** Maximal runs of the elements that satisfy a predicate: what strings.Fields collects from a
    line, and the words that a name sanitiser keeps. */
module Runs {
  /** The maximal runs of kept elements, in order. */
  function RunsOf<T>(s: seq<T>, keep: T -> bool): seq<seq<T>> {
    if s == [] then []
    else
      var before := RunsOf(s[..|s| - 1], keep);
      var x := s[|s| - 1];
      if !keep(x) then before
      else if EndsKept(s[..|s| - 1], keep) && before != [] then
        before[..|before| - 1] + [before[|before| - 1] + [x]]
      else before + [[x]]
  }

  predicate EndsKept<T>(s: seq<T>, keep: T -> bool) {
    s != [] && keep(s[|s| - 1])
  }

  predicate StartsKept<T>(s: seq<T>, keep: T -> bool) {
    s != [] && keep(s[0])
  }

  /** The runs are non-empty and of kept elements only; together they are all the kept elements,
      in order. */
  lemma {:induction false} RunsAreTheKeptElements<T>(s: seq<T>, keep: T -> bool)
    ensures forall i :: 0 <= i < |RunsOf(s, keep)| ==> RunsOf(s, keep)[i] != []
    ensures forall i, j :: 0 <= i < |RunsOf(s, keep)| && 0 <= j < |RunsOf(s, keep)[i]| ==> keep(RunsOf(s, keep)[i][j])
    ensures Flatten(RunsOf(s, keep)) == Kept(s, keep)
    ensures EndsKept(s, keep) ==> RunsOf(s, keep) != []
  {
    if s != [] {
      var init := s[..|s| - 1];
      RunsAreTheKeptElements(init, keep);
      var before := RunsOf(init, keep);
      var runs := RunsOf(s, keep);
      var x := s[|s| - 1];
      if keep(x) {
        if EndsKept(init, keep) {
          assert runs[..|runs| - 1] == before[..|before| - 1];
          assert Flatten(runs) == Flatten(before[..|before| - 1]) + (before[|before| - 1] + [x]);
        } else {
          assert runs[..|runs| - 1] == before;
        }
      }
    }
  }

  function Flatten<T>(runs: seq<seq<T>>): seq<T> {
    if runs == [] then [] else Flatten(runs[..|runs| - 1]) + runs[|runs| - 1]
  }

  function Kept<T>(s: seq<T>, keep: T -> bool): seq<T> {
    if s == [] then []
    else if keep(s[|s| - 1]) then Kept(s[..|s| - 1], keep) + [s[|s| - 1]]
    else Kept(s[..|s| - 1], keep)
  }

  function Count<T>(s: seq<T>, keep: T -> bool): nat {
    |RunsOf(s, keep)|
  }

  lemma CountSnoc<T>(s: seq<T>, x: T, keep: T -> bool)
    ensures Count(s + [x], keep) == Count(s, keep) + if keep(x) && !EndsKept(s, keep) then 1 else 0
  {
    assert (s + [x])[..|s|] == s;
    RunsAreTheKeptElements(s, keep);
  }

  /** Joining two sequences merges two runs exactly when both sides of the seam are kept. */
  lemma {:induction false} CountJoin<T>(a: seq<T>, b: seq<T>, keep: T -> bool)
    ensures Count(a + b, keep)
         == Count(a, keep) + Count(b, keep) - if EndsKept(a, keep) && StartsKept(b, keep) then 1 else 0
  {
    if b == [] {
      assert a + b == a;
    } else {
      var init, x := b[..|b| - 1], b[|b| - 1];
      CountJoin(a, init, keep);
      assert b == init + [x];
      assert a + b == (a + init) + [x];
      CountSnoc(a + init, x, keep);
      CountSnoc(init, x, keep);
      if init == [] {
        assert a + init == a;
      }
    }
  }
}

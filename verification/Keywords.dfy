/** The most frequent keywords: topKeywordsFromCounts of internal/demo/sentiment.go. */
module Keywords {
  datatype KeyCount = KeyCount(key: string, count: int)

  /** The order of Go strings. */
  predicate Less(a: string, b: string) {
    b != [] && (a == [] || a[0] < b[0] || (a[0] == b[0] && Less(a[1..], b[1..])))
  }

  /** Higher counts come first; equal counts are in the order of the keys. */
  predicate Before(a: KeyCount, b: KeyCount) {
    if a.count == b.count then Less(a.key, b.key) else a.count > b.count
  }

  // ----- What the top keywords are

  function Counted(counts: map<string, int>, key: string): KeyCount
    requires key in counts
  {
    KeyCount(key, counts[key])
  }

  function Positive(counts: map<string, int>): set<string> {
    set key | key in counts && counts[key] > 0
  }

  /** The first `limit` of the keys with a positive count, or all of them if there are fewer or there is no limit. */
  ghost predicate IsTop(top: seq<string>, counts: map<string, int>, limit: int) {
    && |top| == (if limit <= 0 || limit > |Positive(counts)| then |Positive(counts)| else limit)
    && (forall i :: 0 <= i < |top| ==> top[i] in Positive(counts))
    && (forall i, j :: 0 <= i < j < |top| ==> Before(Counted(counts, top[i]), Counted(counts, top[j])))
    && (forall i, key :: 0 <= i < |top| && key in Positive(counts) && key !in top ==>
          Before(Counted(counts, top[i]), Counted(counts, key)))
  }

  // ----- The order

  lemma {:induction false} LessIsOrder(a: string, b: string)
    ensures !(Less(a, b) && Less(b, a)) && !Less(a, a)
    ensures a != b ==> Less(a, b) || Less(b, a)
    decreases |a|
  {
    if a != [] && b != [] {
      LessIsOrder(a[1..], b[1..]);
      assert a == [a[0]] + a[1..] && b == [b[0]] + b[1..];
    } else if a != [] {
      LessIsOrder(a[1..], []);
    }
  }

  /** One string is before another if it is a proper prefix, or smaller where they first differ. */
  lemma {:induction false} LessIsLexicographic(a: string, b: string)
    ensures Less(a, b) <==> a < b || exists i :: 0 <= i < |a| && i < |b| && a[..i] == b[..i] && a[i] < b[i]
  {
    if a != [] && b != [] && a[0] == b[0] {
      LessIsLexicographic(a[1..], b[1..]);
      assert a == [a[0]] + a[1..] && b == [b[0]] + b[1..];
      if i :| 0 <= i < |a[1..]| && i < |b[1..]| && a[1..][..i] == b[1..][..i] && a[1..][i] < b[1..][i] {
        assert a[..i + 1] == [a[0]] + a[1..][..i] && b[..i + 1] == [b[0]] + b[1..][..i];
        assert a[i + 1] < b[i + 1];
      }
      if i :| 0 <= i < |a| && i < |b| && a[..i] == b[..i] && a[i] < b[i] {
        assert a[1..][..i - 1] == a[..i][1..] && b[1..][..i - 1] == b[..i][1..];
        assert a[1..][i - 1] < b[1..][i - 1];
      }
    } else if a != [] && b != [] {
      assert a[..0] == b[..0];
      if i :| 0 <= i < |a| && i < |b| && a[..i] == b[..i] && a[i] < b[i] {
        assert i > 0 ==> a[..i][0] == b[..i][0];
      }
    }
  }

  lemma {:induction false} LessTransitive(a: string, b: string, c: string)
    requires Less(a, b) && Less(b, c)
    ensures Less(a, c)
  {
    if a != [] && a[0] == b[0] == c[0] {
      LessTransitive(a[1..], b[1..], c[1..]);
    }
  }

  lemma BeforeIsOrder(a: KeyCount, b: KeyCount)
    ensures !(Before(a, b) && Before(b, a))
    ensures a.key != b.key ==> Before(a, b) || Before(b, a)
  {
    LessIsOrder(a.key, b.key);
  }

  lemma BeforeTransitive(a: KeyCount, b: KeyCount, c: KeyCount)
    requires Before(a, b) && Before(b, c)
    ensures Before(a, c)
  {
    if a.count == b.count == c.count {
      LessTransitive(a.key, b.key, c.key);
    }
  }

  /** The top keywords are unique, so no order of iteration over the counts can change them. */
  lemma TopIsUnique(a: seq<string>, b: seq<string>, counts: map<string, int>, limit: int)
    requires IsTop(a, counts, limit) && IsTop(b, counts, limit)
    ensures a == b
  {
    if a != b {
      var i :| 0 <= i < |a| && a[i] != b[i] && a[..i] == b[..i] by {
        FirstDifference(a, b);
      }
      BeforeIsOrder(Counted(counts, a[i]), Counted(counts, b[i]));
      NotBetter(a, b, counts, limit, i);
      NotBetter(b, a, counts, limit, i);
    }
  }

  lemma {:induction false} FirstDifference(a: seq<string>, b: seq<string>)
    requires |a| == |b| && a != b
    ensures exists i :: 0 <= i < |a| && a[i] != b[i] && a[..i] == b[..i]
  {
    if a[..|a| - 1] != b[..|b| - 1] {
      FirstDifference(a[..|a| - 1], b[..|b| - 1]);
      var i :| 0 <= i < |a| - 1 && a[..|a| - 1][i] != b[..|b| - 1][i] && a[..|a| - 1][..i] == b[..|b| - 1][..i];
      assert a[..i] == a[..|a| - 1][..i] && b[..i] == b[..|b| - 1][..i];
    }
  }

  /** Of two top lists that agree up to i, neither can have the better key there. */
  lemma NotBetter(a: seq<string>, b: seq<string>, counts: map<string, int>, limit: int, i: nat)
    requires IsTop(a, counts, limit) && IsTop(b, counts, limit)
    requires i < |a| && a[..i] == b[..i]
    ensures !Before(Counted(counts, a[i]), Counted(counts, b[i]))
  {
    BeforeIsOrder(Counted(counts, a[i]), Counted(counts, b[i]));
    if a[i] in b {
      var j :| 0 <= j < |b| && b[j] == a[i];
      if j < i {
        assert a[j] == a[..i][j] == b[..i][j] == a[i];
        BeforeIsOrder(Counted(counts, a[j]), Counted(counts, a[i]));
      }
    }
  }

  // ----- The computation

  predicate Sorted(all: seq<KeyCount>) {
    forall i, j :: 0 <= i < j < |all| ==> Before(all[i], all[j])
  }

  predicate DistinctKeys(all: seq<KeyCount>) {
    forall i, j :: 0 <= i < j < |all| ==> all[i].key != all[j].key
  }

  /** Stands for the library's sort, which puts distinct keys into the only possible order. */
  method Sort(all: seq<KeyCount>) returns (sorted: seq<KeyCount>)
    requires DistinctKeys(all)
    ensures Sorted(sorted) && multiset(sorted) == multiset(all)
  {
    sorted := [];
    for n := 0 to |all|
      invariant Sorted(sorted) && multiset(sorted) == multiset(all[..n])
    {
      assert all[..n + 1] == all[..n] + [all[n]];
      forall i | 0 <= i < |sorted|
        ensures sorted[i].key != all[n].key
      {
        assert sorted[i] in multiset(all[..n]);
      }
      sorted := Insert(sorted, all[n]);
    }
    assert all[..|all|] == all;
  }

  method Insert(sorted: seq<KeyCount>, x: KeyCount) returns (r: seq<KeyCount>)
    requires Sorted(sorted) && forall i :: 0 <= i < |sorted| ==> sorted[i].key != x.key
    ensures Sorted(r) && multiset(r) == multiset(sorted) + multiset{x}
  {
    var i := |sorted|;
    while i > 0 && Before(x, sorted[i - 1])
      invariant 0 <= i <= |sorted|
      invariant forall j :: i <= j < |sorted| ==> Before(x, sorted[j])
    {
      i := i - 1;
    }
    if i > 0 {
      BeforeIsOrder(x, sorted[i - 1]);
    }
    r := sorted[..i] + [x] + sorted[i..];
    InsertedIsSorted(sorted, x, i, r);
    assert sorted == sorted[..i] + sorted[i..];
  }

  lemma InsertedIsSorted(sorted: seq<KeyCount>, x: KeyCount, i: nat, r: seq<KeyCount>)
    requires Sorted(sorted) && i <= |sorted| && r == sorted[..i] + [x] + sorted[i..]
    requires i > 0 ==> Before(sorted[i - 1], x)
    requires forall j :: i <= j < |sorted| ==> Before(x, sorted[j])
    ensures Sorted(r)
  {
    forall j | 0 <= j < i
      ensures Before(sorted[j], x)
    {
      if j < i - 1 {
        BeforeTransitive(sorted[j], sorted[i - 1], x);
      }
    }
    forall j, k | 0 <= j < k < |r|
      ensures Before(r[j], r[k])
    {
      assert r[j] == if j < i then sorted[j] else if j == i then x else sorted[j - 1];
      assert r[k] == if k < i then sorted[k] else if k == i then x else sorted[k - 1];
    }
  }

  /** The keys with positive counts, in any order. */
  method CollectPositive(counts: map<string, int>) returns (all: seq<KeyCount>)
    ensures DistinctKeys(all) && |all| == |Positive(counts)|
    ensures forall i :: 0 <= i < |all| ==> all[i].key in Positive(counts) && all[i] == Counted(counts, all[i].key)
    ensures forall key :: key in Positive(counts) ==> Counted(counts, key) in all
  {
    all := [];
    var rest := counts.Keys;
    while rest != {}
      invariant rest <= counts.Keys && DistinctKeys(all)
      invariant forall i :: 0 <= i < |all| ==>
        all[i].key in Positive(counts) && all[i].key !in rest && all[i] == Counted(counts, all[i].key)
      invariant forall key :: key in Positive(counts) && key !in rest ==> Counted(counts, key) in all
      decreases rest
    {
      var k :| k in rest;
      var c := counts[k];
      if c > 0 {
        all := all + [KeyCount(k, c)];
      }
      rest := rest - {k};
    }
    CountKeys(all, Positive(counts), counts);
  }

  lemma {:induction false} CountKeys(all: seq<KeyCount>, keys: set<string>, counts: map<string, int>)
    requires DistinctKeys(all) && keys <= counts.Keys
    requires forall i :: 0 <= i < |all| ==> all[i].key in keys
    requires forall key :: key in keys ==> Counted(counts, key) in all
    ensures |all| == |keys|
  {
    if all == [] {
      assert keys == {};
    } else {
      var init, last := all[..|all| - 1], all[|all| - 1].key;
      forall key | key in keys - {last}
        ensures Counted(counts, key) in init
      {
        var j :| 0 <= j < |all| && all[j] == Counted(counts, key);
        assert init[j] == all[j];
      }
      CountKeys(init, keys - {last}, counts);
    }
  }

  method TopKeywordsFromCounts(counts: map<string, int>, limit: int) returns (out: seq<string>)
    ensures IsTop(out, counts, limit)
    ensures var positive := set key | key in counts && counts[key] > 0;
      |out| == if limit <= 0 || limit > |positive| then |positive| else limit
    ensures forall i :: 0 <= i < |out| ==> out[i] in counts && counts[out[i]] > 0
    ensures forall i, j :: 0 <= i < j < |out| ==>
      counts[out[i]] > counts[out[j]] || (counts[out[i]] == counts[out[j]] && Less(out[i], out[j]))
    ensures forall i, key :: 0 <= i < |out| && key in counts && counts[key] > 0 && key !in out ==>
      counts[out[i]] > counts[key] || (counts[out[i]] == counts[key] && Less(out[i], key))
  {
    var all := CollectPositive(counts);
    var sorted := Sort(all);
    SortedIsComplete(all, sorted, counts);
    var n := limit;
    if n <= 0 || n > |sorted| {
      n := |sorted|;
    }
    out := [];
    for i := 0 to n
      invariant |out| == i && forall j :: 0 <= j < i ==> out[j] == sorted[j].key
    {
      out := out + [sorted[i].key];
    }
    PrefixIsTop(sorted, n, out, counts, limit);
    TopInWords(out, counts, limit);
  }

  /** A top list in terms of the counts alone. */
  lemma TopInWords(out: seq<string>, counts: map<string, int>, limit: int)
    requires IsTop(out, counts, limit)
    ensures var positive := set key | key in counts && counts[key] > 0;
      |out| == if limit <= 0 || limit > |positive| then |positive| else limit
    ensures forall i :: 0 <= i < |out| ==> out[i] in counts && counts[out[i]] > 0
    ensures forall i, j :: 0 <= i < j < |out| ==>
      counts[out[i]] > counts[out[j]] || (counts[out[i]] == counts[out[j]] && Less(out[i], out[j]))
    ensures forall i, key :: 0 <= i < |out| && key in counts && counts[key] > 0 && key !in out ==>
      counts[out[i]] > counts[key] || (counts[out[i]] == counts[key] && Less(out[i], key))
  {
    assert Positive(counts) == set key | key in counts && counts[key] > 0;
    forall i, key | 0 <= i < |out| && key in counts && counts[key] > 0 && key !in out
      ensures counts[out[i]] > counts[key] || (counts[out[i]] == counts[key] && Less(out[i], key))
    {
      assert key in Positive(counts);
    }
  }

  lemma SortedIsComplete(all: seq<KeyCount>, sorted: seq<KeyCount>, counts: map<string, int>)
    requires multiset(sorted) == multiset(all) && |all| == |Positive(counts)|
    requires forall i :: 0 <= i < |all| ==> all[i].key in Positive(counts) && all[i] == Counted(counts, all[i].key)
    requires forall key :: key in Positive(counts) ==> Counted(counts, key) in all
    ensures |sorted| == |Positive(counts)|
    ensures forall i :: 0 <= i < |sorted| ==>
      sorted[i].key in Positive(counts) && sorted[i] == Counted(counts, sorted[i].key)
    ensures forall key :: key in Positive(counts) ==> Counted(counts, key) in sorted
  {
    assert |sorted| == |multiset(sorted)| == |multiset(all)| == |all|;
    forall i | 0 <= i < |sorted|
      ensures sorted[i].key in Positive(counts) && sorted[i] == Counted(counts, sorted[i].key)
    {
      assert sorted[i] in multiset(all);
    }
    forall key | key in Positive(counts)
      ensures Counted(counts, key) in sorted
    {
      assert Counted(counts, key) in multiset(sorted);
    }
  }

  lemma PrefixIsTop(sorted: seq<KeyCount>, n: nat, out: seq<string>, counts: map<string, int>, limit: int)
    requires Sorted(sorted) && |sorted| == |Positive(counts)| && n == |out| <= |sorted|
    requires n == if limit <= 0 || limit > |sorted| then |sorted| else limit
    requires forall i :: 0 <= i < |sorted| ==>
      sorted[i].key in Positive(counts) && sorted[i] == Counted(counts, sorted[i].key)
    requires forall key :: key in Positive(counts) ==> Counted(counts, key) in sorted
    requires forall i :: 0 <= i < n ==> out[i] == sorted[i].key
    ensures IsTop(out, counts, limit)
  {
    forall i, key | 0 <= i < |out| && key in Positive(counts) && key !in out
      ensures Before(Counted(counts, out[i]), Counted(counts, key))
    {
      var j :| 0 <= j < |sorted| && sorted[j] == Counted(counts, key);
    }
  }
}

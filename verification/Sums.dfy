/** Sums of a measure over a list. */
module Sums {
  function SumTo<T>(items: seq<T>, n: nat, f: T -> nat): nat
    requires n <= |items|
  {
    if n == 0 then 0 else SumTo(items, n - 1, f) + f(items[n - 1])
  }

  function Total<T>(items: seq<T>, f: T -> nat): nat {
    SumTo(items, |items|, f)
  }

  lemma {:induction false} SumPrefix<T>(a: seq<T>, b: seq<T>, n: nat, f: T -> nat)
    requires n <= |a|
    ensures SumTo(a + b, n, f) == SumTo(a, n, f)
  {
    if n > 0 {
      SumPrefix(a, b, n - 1, f);
    }
  }

  lemma {:induction false} SumAfter<T>(a: seq<T>, b: seq<T>, n: nat, f: T -> nat)
    requires n <= |b|
    ensures SumTo(a + b, |a| + n, f) == Total(a, f) + SumTo(b, n, f)
  {
    if n == 0 {
      SumPrefix(a, b, |a|, f);
    } else {
      SumAfter(a, b, n - 1, f);
    }
  }

  lemma TotalJoin<T>(a: seq<T>, b: seq<T>, f: T -> nat)
    ensures Total(a + b, f) == Total(a, f) + Total(b, f)
  {
    SumAfter(a, b, |b|, f);
  }

  lemma TotalOne<T>(x: T, f: T -> nat)
    ensures Total([x], f) == f(x)
  {
    assert SumTo([x], 1, f) == SumTo([x], 0, f) + f([x][0]);
  }

  lemma TotalCons<T>(x: T, items: seq<T>, f: T -> nat)
    ensures Total([x] + items, f) == f(x) + Total(items, f)
  {
    TotalOne(x, f);
    TotalJoin([x], items, f);
  }
}

/** The array operations every page applies to its record collections:
    `filter` with a predicate, `filter(...).length` as a count, and
    `reduce((sum, x) => sum + k(x), 0)` as an integer sum. */
module Seqs {

  /** `Array.prototype.filter`: the elements of `s` that satisfy `f`, in order. */
  function Filter<T>(s: seq<T>, f: T -> bool): (r: seq<T>)
    ensures |r| <= |s|
    ensures forall x :: x in r ==> x in s && f(x)
  {
    if s == [] then []
    else if f(s[0]) then [s[0]] + Filter(s[1..], f)
    else Filter(s[1..], f)
  }

  /** `filter(f).length` */
  function Count<T>(s: seq<T>, f: T -> bool): (n: nat)
    ensures n <= |s|
    ensures n == 0 <==> forall x :: x in s ==> !f(x)
  {
    FilterEmptyIff(s, f);
    |Filter(s, f)|
  }

  /** `reduce((sum, x) => sum + k(x), 0)` over exact integers. */
  function SumBy<T>(s: seq<T>, k: T -> int): (r: int)
    ensures (forall x :: x in s ==> k(x) >= 0) ==> r >= 0
  {
    if s == [] then 0 else k(s[0]) + SumBy(s[1..], k)
  }

  /** `a` is `b` with some elements removed and the rest kept in order. */
  ghost predicate IsSubsequence<T>(a: seq<T>, b: seq<T>)
    decreases |b|
  {
    a == [] ||
    (b != [] && ((a[0] == b[0] && IsSubsequence(a[1..], b[1..])) || IsSubsequence(a, b[1..])))
  }

  function Min(a: int, b: int): int
  {
    if a <= b then a else b
  }

  /** `slice(0, n)`: the first `n` elements, or all of them when there are fewer. */
  function Take<T>(s: seq<T>, n: nat): (r: seq<T>)
    ensures |r| == Min(n, |s|)
    ensures r == s[..|r|]
  {
    if n <= |s| then s[..n] else s
  }

  /** The filter result is an order-preserving subsequence of its input that
      holds every element satisfying `f` as often as the input does and no
      other element. */
  lemma {:induction false} FilterSpec<T>(s: seq<T>, f: T -> bool)
    ensures IsSubsequence(Filter(s, f), s)
    ensures forall x :: multiset(Filter(s, f))[x] == if f(x) then multiset(s)[x] else 0
    ensures forall x :: x in Filter(s, f) <==> x in s && f(x)
  {
    if s != [] {
      FilterSpec(s[1..], f);
      assert s == [s[0]] + s[1..];
      var rest := Filter(s[1..], f);
      if f(s[0]) {
        assert ([s[0]] + rest)[1..] == rest;
      } else {
        assert rest == [] || IsSubsequence(rest, s[1..]);
      }
    }
  }

  /** When every element satisfies `f`, filtering changes nothing. */
  lemma {:induction false} FilterAll<T>(s: seq<T>, f: T -> bool)
    requires forall x :: x in s ==> f(x)
    ensures Filter(s, f) == s
  {
    if s != [] {
      FilterAll(s[1..], f);
      assert s == [s[0]] + s[1..];
    }
  }

  /** The result is empty exactly when no element satisfies `f`. */
  lemma {:induction false} FilterEmptyIff<T>(s: seq<T>, f: T -> bool)
    ensures Filter(s, f) == [] <==> forall x :: x in s ==> !f(x)
  {
    if s != [] {
      FilterEmptyIff(s[1..], f);
      assert forall x :: x in s <==> x == s[0] || x in s[1..];
    }
  }

  /** Filtering twice is filtering once by the conjunction. */
  lemma {:induction false} FilterFilter<T>(s: seq<T>, f: T -> bool, g: T -> bool, h: T -> bool)
    requires forall x :: x in s ==> h(x) == (f(x) && g(x))
    ensures Filter(Filter(s, f), g) == Filter(s, h)
  {
    if s != [] {
      FilterFilter(s[1..], f, g, h);
      if f(s[0]) {
        assert ([s[0]] + Filter(s[1..], f))[1..] == Filter(s[1..], f);
      }
    }
  }

  /** Filtering distributes over concatenation. */
  lemma {:induction false} FilterAppend<T>(a: seq<T>, b: seq<T>, f: T -> bool)
    ensures Filter(a + b, f) == Filter(a, f) + Filter(b, f)
  {
    if a == [] {
      assert a + b == b;
    } else {
      assert (a + b)[0] == a[0];
      assert (a + b)[1..] == a[1..] + b;
      FilterAppend(a[1..], b, f);
    }
  }

  lemma SumByCons<T>(x: T, s: seq<T>, k: T -> int)
    ensures SumBy([x] + s, k) == k(x) + SumBy(s, k)
  {
    assert ([x] + s)[1..] == s;
  }

  /** Summing distributes over concatenation. */
  lemma {:induction false} SumByAppend<T>(a: seq<T>, b: seq<T>, k: T -> int)
    ensures SumBy(a + b, k) == SumBy(a, k) + SumBy(b, k)
  {
    if a == [] {
      assert a + b == b;
    } else {
      assert a + b == [a[0]] + (a[1..] + b);
      SumByCons(a[0], a[1..] + b, k);
      SumByAppend(a[1..], b, k);
    }
  }
}

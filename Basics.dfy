/**
 * Small value-level building blocks shared by the model: optional values,
 * sums and means of real numbers (Swift's `reduce(0, +)` and `/ Double(count)`),
 * order-preserving filtering and sorting by an integer key (the store's
 * `SortDescriptor` on dates).
 */
module Basics {

  datatype Option<+T> = None | Some(value: T)

  /** Value of an optional, or the given default (Swift's `??`). */
  function OrElse<T>(o: Option<T>, default: T): (r: T)
    ensures o.Some? ==> r == o.value
    ensures o.None? ==> r == default
  {
    match o
    case Some(v) => v
    case None => default
  }

  /** Length of a calendar day in seconds; dates of the model are timestamps in seconds. */
  const SecondsPerDay: int := 86400

  // ---------------------------------------------------------------------------
  // Sums and means

  function Sum(xs: seq<real>): real
  {
    if xs == [] then 0.0 else xs[0] + Sum(xs[1..])
  }

  /** Every element within [lo, hi] bounds the sum by lo*n and hi*n. */
  lemma {:induction false} SumWithin(xs: seq<real>, lo: real, hi: real)
    requires forall i :: 0 <= i < |xs| ==> lo <= xs[i] <= hi
    ensures lo * |xs| as real <= Sum(xs) <= hi * |xs| as real
  {
    if xs != [] {
      SumWithin(xs[1..], lo, hi);
      assert lo * |xs| as real == lo + lo * |xs[1..]| as real;
      assert hi * |xs| as real == hi + hi * |xs[1..]| as real;
    }
  }

  /** Arithmetic mean of a non-empty sequence. */
  function Mean(xs: seq<real>): real
    requires xs != []
  {
    Sum(xs) / |xs| as real
  }

  /** The mean of values that all lie in [lo, hi] lies in [lo, hi]. */
  lemma MeanWithin(xs: seq<real>, lo: real, hi: real)
    requires xs != []
    requires forall i :: 0 <= i < |xs| ==> lo <= xs[i] <= hi
    ensures lo <= Mean(xs) <= hi
  {
    SumWithin(xs, lo, hi);
    var n := |xs| as real;
    QuotientWithin(Sum(xs), n, lo, hi);
  }

  /** Dividing a value in [lo * n, hi * n] by a positive n gives a value in [lo, hi]. */
  lemma QuotientWithin(s: real, n: real, lo: real, hi: real)
    requires n > 0.0
    requires lo * n <= s <= hi * n
    ensures lo <= s / n <= hi
  {
    var q := s / n;
    assert (q - lo) * n == s - lo * n;
    assert (hi - q) * n == hi * n - s;
  }

  /** The mean times the number of values is their sum. */
  lemma MeanTimesCount(xs: seq<real>)
    requires xs != []
    ensures Mean(xs) * |xs| as real == Sum(xs)
  {
    var n := |xs| as real;
    var total := Sum(xs);
    assert (total / n) * n == total;
  }

  /** The mean of values within [lo, hi], or `d` for no values; it lies within [lo, hi]. */
  function MeanOr(xs: seq<real>, d: real, lo: real, hi: real): (m: real)
    requires lo <= d <= hi
    requires forall i :: 0 <= i < |xs| ==> lo <= xs[i] <= hi
    ensures xs == [] ==> m == d
    ensures xs != [] ==> m == Mean(xs) && m * |xs| as real == Sum(xs)
    ensures lo <= m <= hi
  {
    if xs == [] then d
    else
      MeanWithin(xs, lo, hi);
      MeanTimesCount(xs);
      Mean(xs)
  }

  /** `m` added up `n` times, that is `m * n`. */
  function Times(m: real, n: nat): real { m * n as real }

  /** The mean times the number of values is their total. */
  lemma MeanTimesLength(xs: seq<real>, m: real, n: nat)
    requires xs != [] && m == Mean(xs) && n == |xs|
    ensures Times(m, n) == Sum(xs)
  {
    MeanTimesCount(xs);
  }

  /** The mean of equal values is that value. */
  lemma MeanConstant(xs: seq<real>, c: real)
    requires xs != []
    requires forall i :: 0 <= i < |xs| ==> xs[i] == c
    ensures Mean(xs) == c
  {
    var n := |xs| as real;
    SumConstant(xs, c);
    DivideProduct(c, n);
  }

  lemma DivideProduct(c: real, n: real)
    requires n > 0.0
    ensures c * n / n == c
  {
  }

  /** The sum of equal values is their count times that value. */
  lemma {:induction false} SumConstant(xs: seq<real>, c: real)
    requires forall i :: 0 <= i < |xs| ==> xs[i] == c
    ensures Sum(xs) == c * |xs| as real
  {
    if xs != [] {
      SumConstant(xs[1..], c);
    }
  }

  // ---------------------------------------------------------------------------
  // Filtering (Swift's `filter`) keeps the order of the input

  function Filter<T>(s: seq<T>, p: T -> bool): (r: seq<T>)
    ensures |r| <= |s|
    ensures forall i :: 0 <= i < |r| ==> p(r[i]) && r[i] in s
    ensures forall i :: 0 <= i < |s| && p(s[i]) ==> s[i] in r
    ensures multiset(r) <= multiset(s)
  {
    if s == [] then []
    else
      assert s == [s[0]] + s[1..];
      if p(s[0]) then [s[0]] + Filter(s[1..], p) else Filter(s[1..], p)
  }

  /** Nothing is kept exactly when no element satisfies p. */
  lemma FilterEmpty<T>(s: seq<T>, p: T -> bool)
    ensures Filter(s, p) == [] <==> forall i :: 0 <= i < |s| ==> !p(s[i])
  {
    var r := Filter(s, p);
    if r != [] {
      var j :| 0 <= j < |s| && s[j] == r[0];
      assert p(s[j]);
    }
  }

  // ---------------------------------------------------------------------------
  // Sorting by an integer key, ascending; ties keep their input order

  ghost predicate SortedBy<T>(s: seq<T>, key: T -> int)
  {
    forall i, j :: 0 <= i < j < |s| ==> key(s[i]) <= key(s[j])
  }

  function InsertBy<T>(x: T, s: seq<T>, key: T -> int): (r: seq<T>)
    ensures multiset(r) == multiset(s) + multiset{x}
    ensures |r| == |s| + 1
  {
    if s == [] || key(x) <= key(s[0]) then [x] + s
    else
      assert s == [s[0]] + s[1..];
      [s[0]] + InsertBy(x, s[1..], key)
  }

  lemma {:induction false} InsertBySorted<T>(x: T, s: seq<T>, key: T -> int)
    requires SortedBy(s, key)
    ensures SortedBy(InsertBy(x, s, key), key)
  {
    if s != [] && key(x) > key(s[0]) {
      var rest := InsertBy(x, s[1..], key);
      InsertBySorted(x, s[1..], key);
      forall i | 0 <= i < |rest| ensures key(s[0]) <= key(rest[i]) {
        assert rest[i] in multiset(rest);
        assert rest[i] == x || rest[i] in multiset(s[1..]);
        if rest[i] != x {
          var j :| 0 <= j < |s[1..]| && s[1..][j] == rest[i];
          assert s[j + 1] == rest[i];
        }
      }
    }
  }

  function SortBy<T>(s: seq<T>, key: T -> int): (r: seq<T>)
    ensures SortedBy(r, key)
    ensures multiset(r) == multiset(s)
    ensures |r| == |s|
  {
    if s == [] then []
    else
      assert s == [s[0]] + s[1..];
      var rest := SortBy(s[1..], key);
      InsertBySorted(s[0], rest, key);
      InsertBy(s[0], rest, key)
  }

  /** The last element of a key-sorted sequence has the largest key of all. */
  lemma LastIsLatest<T>(s: seq<T>, key: T -> int, x: T)
    requires SortedBy(s, key)
    requires x in s
    ensures key(x) <= key(s[|s| - 1])
  {
    var i :| 0 <= i < |s| && s[i] == x;
    if i < |s| - 1 {
      assert key(s[i]) <= key(s[|s| - 1]);
    }
  }

  /** Every element of a permutation of `b` is an element of `b`. */
  lemma PermutationMembers<T>(a: seq<T>, b: seq<T>)
    requires multiset(a) == multiset(b)
    ensures forall i :: 0 <= i < |a| ==> a[i] in b
  {
    forall i | 0 <= i < |a|
      ensures a[i] in b
    {
      assert a[i] in multiset(a);
    }
  }

  /** At most n leading elements (Swift's `prefix(n)`). */
  function Take<T>(s: seq<T>, n: nat): (r: seq<T>)
    ensures |r| <= n && |r| <= |s|
    ensures |r| == if n < |s| then n else |s|
    ensures r <= s
  {
    if n < |s| then s[..n] else s
  }
}

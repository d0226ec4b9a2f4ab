/**
 * `Array.prototype.sort` with a comparator, as the dashboard uses it: a stable
 * sort (ECMAScript 2019 and later) that is only well defined when the
 * comparator is consistent. `before(a, b)` means the comparator lets `a`
 * stay ahead of `b` (`compare(a, b) <= 0`).
 */
module Sorting {
  import opened Seqs

  /** A consistent comparator: every pair is ordered, and the order is transitive. */
  ghost predicate TotalPreorder<T(!new)>(before: (T, T) -> bool) {
    && (forall a, b :: before(a, b) || before(b, a))
    && (forall a, b, c :: before(a, b) && before(b, c) ==> before(a, c))
  }

  predicate Sorted<T>(s: seq<T>, before: (T, T) -> bool) {
    forall i, j :: 0 <= i < j < |s| ==> before(s[i], s[j])
  }

  /** No two elements share a key. */
  ghost predicate DistinctBy<T, K>(s: seq<T>, key: T -> K) {
    forall i, j :: 0 <= i < j < |s| ==> key(s[i]) != key(s[j])
  }

  /** Puts `x` ahead of the first element it may precede, so that equal elements keep their order. */
  function Insert<T>(x: T, s: seq<T>, before: (T, T) -> bool): (r: seq<T>)
    ensures |r| == |s| + 1
    ensures multiset(r) == multiset{x} + multiset(s)
  {
    if s == [] || before(x, s[0]) then
      [x] + s
    else
      assert s == [s[0]] + s[1..];
      [s[0]] + Insert(x, s[1..], before)
  }

  lemma {:induction false} InsertSorted<T(!new)>(x: T, s: seq<T>, before: (T, T) -> bool)
    requires TotalPreorder(before)
    requires Sorted(s, before)
    ensures Sorted(Insert(x, s, before), before)
    decreases |s|
  {
    var r := Insert(x, s, before);
    if s == [] {
    } else if before(x, s[0]) {
      forall i, j | 0 <= i < j < |r| ensures before(r[i], r[j]) {
        if i == 0 && j > 1 {
          assert before(x, s[0]) && before(s[0], s[j - 1]);
        }
      }
    } else {
      assert before(s[0], x);
      var rest := Insert(x, s[1..], before);
      InsertSorted(x, s[1..], before);
      forall k | 0 <= k < |rest| ensures before(s[0], rest[k]) {
        assert rest[k] in multiset(rest);
        if rest[k] != x {
          var m :| 0 <= m < |s[1..]| && s[1..][m] == rest[k];
          assert s[m + 1] == rest[k];
        }
      }
      assert r == [s[0]] + rest;
    }
  }

  /** `s.sort(compare)`: a sorted permutation of `s`. */
  function SortBy<T(!new)>(s: seq<T>, before: (T, T) -> bool): (r: seq<T>)
    requires TotalPreorder(before)
    ensures |r| == |s|
    ensures multiset(r) == multiset(s)
    ensures Sorted(r, before)
  {
    if s == [] then []
    else
      assert s == [s[0]] + s[1..];
      var rest := SortBy(s[1..], before);
      InsertSorted(s[0], rest, before);
      Insert(s[0], rest, before)
  }

  /** Every element of a permutation is an element of the original. */
  lemma PermutationMember<T>(r: seq<T>, s: seq<T>, k: int)
    requires multiset(r) == multiset(s) && 0 <= k < |r|
    ensures r[k] in s
  {
    assert r[k] in multiset(r);
  }

  /** Sorting keeps every sum over the elements. */
  lemma {:induction false} InsertSum<T>(x: T, s: seq<T>, before: (T, T) -> bool, f: T -> int)
    ensures SumBy(Insert(x, s, before), f) == f(x) + SumBy(s, f)
    decreases |s|
  {
    if s != [] && !before(x, s[0]) {
      InsertSum(x, s[1..], before, f);
      assert ([s[0]] + Insert(x, s[1..], before))[1..] == Insert(x, s[1..], before);
    }
  }

  lemma {:induction false} SortBySum<T(!new)>(s: seq<T>, before: (T, T) -> bool, f: T -> int)
    requires TotalPreorder(before)
    ensures SumBy(SortBy(s, before), f) == SumBy(s, f)
    decreases |s|
  {
    if s != [] {
      SortBySum(s[1..], before, f);
      InsertSum(s[0], SortBy(s[1..], before), before, f);
    }
  }

  /** Sorting keeps keys distinct. */
  lemma {:induction false} InsertDistinct<T, K>(x: T, s: seq<T>, before: (T, T) -> bool, key: T -> K)
    requires DistinctBy(s, key)
    requires forall i :: 0 <= i < |s| ==> key(s[i]) != key(x)
    ensures DistinctBy(Insert(x, s, before), key)
    decreases |s|
  {
    if s != [] && !before(x, s[0]) {
      InsertDistinct(x, s[1..], before, key);
      var rest := Insert(x, s[1..], before);
      forall k | 0 <= k < |rest| ensures key(rest[k]) != key(s[0]) {
        PermutationMember(rest, [x] + s[1..], k);
      }
    }
  }

  lemma {:induction false} SortByDistinct<T(!new), K>(s: seq<T>, before: (T, T) -> bool, key: T -> K)
    requires TotalPreorder(before)
    requires DistinctBy(s, key)
    ensures DistinctBy(SortBy(s, before), key)
    decreases |s|
  {
    if s != [] {
      SortByDistinct(s[1..], before, key);
      var rest := SortBy(s[1..], before);
      forall k | 0 <= k < |rest| ensures key(rest[k]) != key(s[0]) {
        PermutationMember(rest, s[1..], k);
      }
      InsertDistinct(s[0], rest, before, key);
    }
  }

  /** The first element of a sorted permutation may precede every element of the original. */
  lemma SortedFirst<T(!new)>(r: seq<T>, s: seq<T>, before: (T, T) -> bool, x: T)
    requires TotalPreorder(before)
    requires Sorted(r, before) && multiset(r) == multiset(s)
    requires x in s
    ensures r != [] && r[0] in s && before(r[0], x)
  {
    assert x in multiset(r);
    assert r[0] in multiset(s);
  }

  /** What `slice(0, n)` drops from a sorted list comes after everything it keeps. */
  lemma TakeOfSorted<T(!new)>(s: seq<T>, before: (T, T) -> bool, n: nat, x: T)
    requires Sorted(s, before)
    requires x in s && x !in Take(s, n)
    ensures forall y :: y in Take(s, n) ==> before(y, x)
  {
    var j :| 0 <= j < |s| && s[j] == x;
    var t := Take(s, n);
    assert j >= |t|;
    forall y | y in t ensures before(y, x) {
      var i :| 0 <= i < |t| && t[i] == y;
      assert s[i] == y;
    }
  }

  /** What `slice(-n)` drops from a sorted list comes before everything it keeps. */
  lemma TakeLastOfSorted<T(!new)>(s: seq<T>, before: (T, T) -> bool, n: nat, x: T)
    requires n >= 1
    requires Sorted(s, before)
    requires x in s && x !in TakeLast(s, n)
    ensures forall y :: y in TakeLast(s, n) ==> before(x, y)
  {
    var j :| 0 <= j < |s| && s[j] == x;
    var t := TakeLast(s, n);
    var off := |s| - |t|;
    assert j < off;
    forall y | y in t ensures before(x, y) {
      var i :| 0 <= i < |t| && t[i] == y;
      assert s[off + i] == y;
    }
  }

  /** A suffix of a sorted list is sorted, and one without repeated keys has none either. */
  lemma SuffixSorted<T, K>(s: seq<T>, before: (T, T) -> bool, key: T -> K, a: int)
    requires 0 <= a <= |s|
    ensures Sorted(s, before) ==> Sorted(s[a..], before)
    ensures DistinctBy(s, key) ==> DistinctBy(s[a..], key)
  {
    var t := s[a..];
    if Sorted(s, before) {
      forall i, j | 0 <= i < j < |t| ensures before(t[i], t[j]) {
        assert t[i] == s[a + i] && t[j] == s[a + j];
      }
    }
    if DistinctBy(s, key) {
      forall i, j | 0 <= i < j < |t| ensures key(t[i]) != key(t[j]) {
        assert t[i] == s[a + i] && t[j] == s[a + j];
      }
    }
  }
}

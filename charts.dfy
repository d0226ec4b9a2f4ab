/**
 * The chart series the dashboard pages derive from a tally:
 * `Object.entries(count).map(...)` (an entry is already a `{ name, value }`
 * pair here), sorted by count or by label, then cut with `slice(0, n)` or
 * `slice(-n)`.
 */
module Charts {
  import opened Wrappers
  import opened Text
  import opened Seqs
  import opened Sorting
  import opened Dictionary
  import opened Tallies

  function EntryKey(e: Entry<int>): string {
    e.key
  }

  function EntryValue(e: Entry<int>): int {
    e.value
  }

  /** The comparator `(a, b) => a.key.localeCompare(b.key)`, taken as code-unit order. */
  predicate ByKeyAsc(a: Entry<int>, b: Entry<int>) {
    StrLe(a.key, b.key)
  }

  lemma ByKeyAscPreorder()
    ensures TotalPreorder(ByKeyAsc)
  {
    forall a: Entry<int>, b: Entry<int> ensures ByKeyAsc(a, b) || ByKeyAsc(b, a) {
      StrLeTotal(a.key, b.key);
    }
    forall a: Entry<int>, b: Entry<int>, c: Entry<int> | ByKeyAsc(a, b) && ByKeyAsc(b, c) ensures ByKeyAsc(a, c) {
      StrLeTransitive(a.key, b.key, c.key);
    }
  }

  /** `.sort((a, b) => a.key.localeCompare(b.key))`. */
  function AscendingByKey(d: seq<Entry<int>>): (r: seq<Entry<int>>)
    ensures |r| == |d| && multiset(r) == multiset(d)
    ensures Sorted(r, ByKeyAsc)
  {
    ByKeyAscPreorder();
    SortBy(d, ByKeyAsc)
  }

  /**
   * Any consistent sort of a tally lists each filed key once, with the summed
   * weight of its records, and lists every filed key.
   */
  lemma SortedTally<T>(h: seq<T>, key: T -> Option<string>, weight: T -> int, before: (Entry<int>, Entry<int>) -> bool)
    requires TotalPreorder(before)
    ensures var s := SortBy(Group(Pairs(h, key, weight)), before);
      && DistinctBy(s, EntryKey)
      && (forall j :: 0 <= j < |s| ==> s[j].value == Revenue(h, key, weight, s[j].key) && Tally(h, key, s[j].key) > 0)
      && (forall k :: Tally(h, key, k) > 0 ==> exists j :: 0 <= j < |s| && s[j].key == k)
  {
    var pairs := Pairs(h, key, weight);
    var d := Group(pairs);
    var s := SortBy(d, before);
    forall i, j | 0 <= i < j < |d| ensures EntryKey(d[i]) != EntryKey(d[j]) {
      DistinctKeysAt(d, i, j);
    }
    SortByDistinct(d, before, EntryKey);
    forall j | 0 <= j < |s| ensures s[j].value == Revenue(h, key, weight, s[j].key) && Tally(h, key, s[j].key) > 0 {
      PermutationMember(s, d, j);
      var n :| 0 <= n < |d| && d[n] == s[j];
      GroupEntry(pairs, n);
      WeightOfPairs(h, key, weight, d[n].key);
      KeysPairs(h, key, weight, d[n].key);
    }
    forall k | Tally(h, key, k) > 0 ensures exists j :: 0 <= j < |s| && s[j].key == k {
      KeysPairs(h, key, weight, k);
      KeyMember(d, k);
      var n :| 0 <= n < |d| && d[n].key == k;
      assert d[n] in multiset(s);
      var j :| 0 <= j < |s| && s[j] == d[n];
    }
  }

  /** The `n` most frequent keys of a count tally: `entries.sort(desc).slice(0, n)`. */
  function TopCounts<T(==)>(h: seq<T>, key: T -> Option<string>, n: nat): seq<Entry<int>> {
    Take(DescendingByCount(Group(Pairs(h, key, One))), n)
  }

  /**
   * A top-`n` chart: at most `n` bars, largest first, each the exact number of
   * records under a distinct key; a key left out has no more records than any
   * key shown, and fewer than `n` bars means no key was left out.
   */
  lemma TopCountsSpec<T>(h: seq<T>, key: T -> Option<string>, n: nat)
    ensures var r := TopCounts(h, key, n);
      && |r| <= n
      && Sorted(r, ByCountDesc)
      && DistinctBy(r, EntryKey)
      && (forall j :: 0 <= j < |r| ==> r[j].value == Tally(h, key, r[j].key) >= 1)
      && (forall k :: Tally(h, key, k) > 0 && (forall j :: 0 <= j < |r| ==> r[j].key != k) ==>
            |r| == n && forall j :: 0 <= j < |r| ==> Tally(h, key, k) <= r[j].value)
  {
    var s := DescendingByCount(Group(Pairs(h, key, One)));
    var r := TopCounts(h, key, n);
    ByCountDescPreorder();
    SortedTally(h, key, One, ByCountDesc);
    forall j | 0 <= j < |r| ensures r[j].value == Tally(h, key, r[j].key) >= 1 {
      assert r[j] == s[j];
      RevenueOne(h, key, r[j].key);
    }
    forall k | Tally(h, key, k) > 0 && (forall j :: 0 <= j < |r| ==> r[j].key != k)
      ensures |r| == n && forall j :: 0 <= j < |r| ==> Tally(h, key, k) <= r[j].value
    {
      var i :| 0 <= i < |s| && s[i].key == k;
      assert s[i] !in r;
      TakeOfSorted(s, ByCountDesc, n, s[i]);
      RevenueOne(h, key, k);
      forall j | 0 <= j < |r| ensures Tally(h, key, k) <= r[j].value {
        assert r[j] in r;
      }
    }
  }

  /** The `n` latest keys of a count tally: `entries.sort(byKey).slice(-n)`. */
  function LatestCounts<T(==)>(h: seq<T>, key: T -> Option<string>, n: nat): seq<Entry<int>>
    requires n >= 1
  {
    TakeLast(AscendingByKey(Group(Pairs(h, key, One))), n)
  }

  /**
   * A last-`n` chart: at most `n` bars in ascending label order, each the
   * exact number of records under a distinct key; a key left out sorts before
   * every key shown, and fewer than `n` bars means no key was left out.
   */
  lemma LatestCountsSpec<T>(h: seq<T>, key: T -> Option<string>, n: nat)
    requires n >= 1
    ensures var r := LatestCounts(h, key, n);
      && |r| <= n
      && Sorted(r, ByKeyAsc)
      && DistinctBy(r, EntryKey)
      && (forall j :: 0 <= j < |r| ==> r[j].value == Tally(h, key, r[j].key) >= 1)
      && (forall k :: Tally(h, key, k) > 0 && (forall j :: 0 <= j < |r| ==> r[j].key != k) ==>
            |r| == n && forall j :: 0 <= j < |r| ==> StrLe(k, r[j].key))
  {
    var s := AscendingByKey(Group(Pairs(h, key, One)));
    var r := LatestCounts(h, key, n);
    var off := |s| - |r|;
    ByKeyAscPreorder();
    SortedTally(h, key, One, ByKeyAsc);
    forall j | 0 <= j < |r| ensures r[j].value == Tally(h, key, r[j].key) >= 1 {
      assert r[j] == s[off + j];
      RevenueOne(h, key, r[j].key);
    }
    SuffixSorted(s, ByKeyAsc, EntryKey, off);
    forall k | Tally(h, key, k) > 0 && (forall j :: 0 <= j < |r| ==> r[j].key != k)
      ensures |r| == n && forall j :: 0 <= j < |r| ==> StrLe(k, r[j].key)
    {
      var i :| 0 <= i < |s| && s[i].key == k;
      assert s[i] !in r;
      TakeLastOfSorted(s, ByKeyAsc, n, s[i]);
      forall j | 0 <= j < |r| ensures StrLe(k, r[j].key) {
        assert r[j] in r;
      }
    }
  }

  /** Every key of a count tally in label order: `entries.sort(byKey)`. */
  function CountsByKey<T(==)>(h: seq<T>, key: T -> Option<string>): seq<Entry<int>> {
    AscendingByKey(Group(Pairs(h, key, One)))
  }

  /**
   * A full chart in label order: one bar per distinct key, each the exact
   * number of its records, together adding up to the number of filed records.
   */
  lemma CountsByKeySpec<T>(h: seq<T>, key: T -> Option<string>)
    ensures var r := CountsByKey(h, key);
      && Sorted(r, ByKeyAsc)
      && DistinctBy(r, EntryKey)
      && (forall j :: 0 <= j < |r| ==> r[j].value == Tally(h, key, r[j].key) >= 1)
      && (forall k :: Tally(h, key, k) > 0 ==> exists j :: 0 <= j < |r| && r[j].key == k)
      && SumBy(r, EntryValue) == Tallied(h, key)
  {
    var d := Group(Pairs(h, key, One));
    var r := CountsByKey(h, key);
    ByKeyAscPreorder();
    SortedTally(h, key, One, ByKeyAsc);
    forall j | 0 <= j < |r| ensures r[j].value == Tally(h, key, r[j].key) >= 1 {
      RevenueOne(h, key, r[j].key);
    }
    SortBySum(d, ByKeyAsc, EntryValue);
    TotalAsSum(d);
    TotalPairs(h, key, One);
    RevenueOne(h, key, "");
  }

  lemma {:induction false} TotalAsSum(d: seq<Entry<int>>)
    ensures SumBy(d, EntryValue) == Total(d)
    decreases |d|
  {
    if d != [] {
      TotalAsSum(d[1..]);
    }
  }
}

/**
 * The tallying idiom the dashboard repeats over its records (sales, users):
 *
 *   const count: Record<string, number> = {};
 *   records.forEach(x => { if (<key of x>) count[key] = (count[key] || 0) + <weight of x>; });
 *   Object.entries(count).sort((a, b) => b[1] - a[1])
 *
 * `key` says under which property a record is filed (`None`: skipped) and
 * `weight` what it adds.
 */
module Tallies {
  import opened Wrappers
  import opened Seqs
  import opened Sorting
  import opened Dictionary

  /** The weight of a record that is merely counted. */
  function One<T(==)>(h: T): int {
    1
  }

  /** What one record adds to the dictionary: nothing, or one `key += weight`. */
  function Contribution<T(==)>(x: T, key: T -> Option<string>, weight: T -> int): seq<Entry<int>> {
    if key(x).Some? then [Entry(key(x).value, weight(x))] else []
  }

  /** The `key += weight` steps of a `forEach` over `h`, in order. */
  function Pairs<T(==)>(h: seq<T>, key: T -> Option<string>, weight: T -> int): seq<Entry<int>> {
    if h == [] then [] else Contribution(h[0], key, weight) + Pairs(h[1..], key, weight)
  }

  /** How many records of `h` are filed under `k`. */
  function Tally<T(==)>(h: seq<T>, key: T -> Option<string>, k: string): nat {
    Count(h, x => key(x) == Some(k))
  }

  /** How many records of `h` are filed at all. */
  function Tallied<T(==)>(h: seq<T>, key: T -> Option<string>): nat {
    Count(h, x => key(x).Some?)
  }

  /** The summed weight of the records of `h` filed under `k`. */
  function Revenue<T(==)>(h: seq<T>, key: T -> Option<string>, weight: T -> int, k: string): int {
    SumBy(h, x => if key(x) == Some(k) then weight(x) else 0)
  }

  /** The summed weight of the records of `h` that are filed at all. */
  function TalliedRevenue<T(==)>(h: seq<T>, key: T -> Option<string>, weight: T -> int): int {
    SumBy(h, x => if key(x).Some? then weight(x) else 0)
  }

  lemma {:induction false} PairsAppend<T>(a: seq<T>, b: seq<T>, key: T -> Option<string>, weight: T -> int)
    ensures Pairs(a + b, key, weight) == Pairs(a, key, weight) + Pairs(b, key, weight)
    decreases |a|
  {
    if a == [] {
      assert a + b == b;
    } else {
      assert (a + b)[1..] == a[1..] + b;
      PairsAppend(a[1..], b, key, weight);
    }
  }

  /** The property `k` of the tally holds the summed weight of the records filed under `k`. */
  lemma {:induction false} WeightOfPairs<T>(h: seq<T>, key: T -> Option<string>, weight: T -> int, k: string)
    ensures WeightOf(Pairs(h, key, weight), k) == Revenue(h, key, weight, k)
    decreases |h|
  {
    if h != [] {
      WeightOfPairs(h[1..], key, weight, k);
      TotalAppend(Contribution(h[0], key, weight), Pairs(h[1..], key, weight));
    }
  }

  /** The tally's values add up to the weight of every filed record. */
  lemma {:induction false} TotalPairs<T>(h: seq<T>, key: T -> Option<string>, weight: T -> int)
    ensures Total(Pairs(h, key, weight)) == TalliedRevenue(h, key, weight)
    decreases |h|
  {
    if h != [] {
      TotalPairs(h[1..], key, weight);
      TotalAppend(Contribution(h[0], key, weight), Pairs(h[1..], key, weight));
    }
  }

  /** The tally has a property `k` exactly when some record is filed under `k`. */
  lemma {:induction false} KeysPairs<T>(h: seq<T>, key: T -> Option<string>, weight: T -> int, k: string)
    ensures k in Keys(Pairs(h, key, weight)) <==> Tally(h, key, k) > 0
    decreases |h|
  {
    if h != [] {
      KeysPairs(h[1..], key, weight, k);
      KeysAppend(Contribution(h[0], key, weight), Pairs(h[1..], key, weight));
    }
  }

  /** Counting with weight one gives the number of records. */
  lemma {:induction false} RevenueOne<T>(h: seq<T>, key: T -> Option<string>, k: string)
    ensures Revenue(h, key, One, k) == Tally(h, key, k)
    ensures TalliedRevenue(h, key, One) == Tallied(h, key)
    decreases |h|
  {
    if h != [] {
      RevenueOne(h[1..], key, k);
    }
  }

  /** `forEach` filling the dictionary in place: one `d[key] = (d[key] || 0) + weight` per filed record. */
  method GroupRecords<T(==)>(h: seq<T>, key: T -> Option<string>, weight: T -> int)
    returns (d: seq<Entry<int>>)
    ensures d == Group(Pairs(h, key, weight))
  {
    d := [];
    for i := 0 to |h|
      invariant d == Group(Pairs(h[..i], key, weight))
    {
      var k := key(h[i]);
      if k.Some? {
        d := Bump(d, k.value, weight(h[i]));
      }
      assert h[..i + 1] == h[..i] + [h[i]];
      PairsAppend(h[..i], [h[i]], key, weight);
      assert Pairs([h[i]], key, weight) == Contribution(h[i], key, weight);
      if k.Some? {
        GroupSnoc(Pairs(h[..i], key, weight), Entry(k.value, weight(h[i])));
      } else {
        assert Pairs(h[..i], key, weight) + [] == Pairs(h[..i], key, weight);
      }
    }
    assert h[..|h|] == h;
  }

  /** The comparator `(a, b) => b[1] - a[1]`: larger counts first. */
  predicate ByCountDesc(a: Entry<int>, b: Entry<int>) {
    a.value >= b.value
  }

  lemma ByCountDescPreorder()
    ensures TotalPreorder(ByCountDesc)
  {
  }

  /** `Object.entries(d).sort((a, b) => b[1] - a[1])`. */
  function DescendingByCount(d: seq<Entry<int>>): (r: seq<Entry<int>>)
    ensures |r| == |d| && multiset(r) == multiset(d)
    ensures Sorted(r, ByCountDesc)
  {
    ByCountDescPreorder();
    SortBy(d, ByCountDesc)
  }

  /** `Object.entries(d).sort((a, b) => b[1] - a[1])[0]`, `None` for an empty dictionary. */
  function MostFrequent(d: seq<Entry<int>>): Option<Entry<int>> {
    var s := DescendingByCount(d);
    if s == [] then None else Some(s[0])
  }

  /** The head of the descending sort is an entry whose value no other entry exceeds. */
  lemma MostFrequentMaximal(d: seq<Entry<int>>)
    ensures MostFrequent(d).None? <==> d == []
    ensures MostFrequent(d).Some? ==> MostFrequent(d).value in d
    ensures MostFrequent(d).Some? ==> forall i :: 0 <= i < |d| ==> d[i].value <= MostFrequent(d).value.value
  {
    var s := DescendingByCount(d);
    if d != [] {
      ByCountDescPreorder();
      forall i | 0 <= i < |d| ensures d[i].value <= s[0].value {
        SortedFirst(s, d, ByCountDesc, d[i]);
      }
      SortedFirst(s, d, ByCountDesc, d[0]);
    }
  }

  /**
   * The most frequent key of a count tally: absent exactly when no record is
   * filed, otherwise a key whose count is the record count under it and is at
   * least the count under any other key.
   */
  lemma TopOfTally<T>(h: seq<T>, key: T -> Option<string>)
    ensures var t := MostFrequent(Group(Pairs(h, key, One)));
      && (t.None? <==> Tallied(h, key) == 0)
      && (t.Some? ==> t.value.value == Tally(h, key, t.value.key) >= 1)
      && (t.Some? ==> forall k :: Tally(h, key, k) <= t.value.value)
  {
    var pairs := Pairs(h, key, One);
    var d := Group(pairs);
    var t := MostFrequent(d);
    MostFrequentMaximal(d);
    TotalPairs(h, key, One);
    RevenueOne(h, key, "");
    if t.None? {
      assert Total(d) == 0;
    } else {
      var e := t.value;
      var i :| 0 <= i < |d| && d[i] == e;
      GroupEntry(pairs, i);
      WeightOfPairs(h, key, One, e.key);
      RevenueOne(h, key, e.key);
      KeysPairs(h, key, One, e.key);
      forall k ensures Tally(h, key, k) <= e.value {
        KeysPairs(h, key, One, k);
        WeightOfPairs(h, key, One, k);
        RevenueOne(h, key, k);
        if k in Keys(pairs) {
          KeyMember(d, k);
          var j :| 0 <= j < |d| && d[j].key == k;
          GroupEntry(pairs, j);
        }
      }
      assert Tallied(h, key) > 0 by {
        TallyBelowTallied(h, key, e.key);
      }
    }
  }

  /** Records filed under one key are among the records filed at all. */
  lemma TallyBelowTallied<T>(h: seq<T>, key: T -> Option<string>, k: string)
    ensures Tally(h, key, k) <= Tallied(h, key)
  {
    CountMonotonic(h, x => key(x) == Some(k), x => key(x).Some?);
  }

  /** When every record is filed, the filed records are all of them. */
  lemma {:induction false} TalliedAll<T>(h: seq<T>, key: T -> Option<string>, weight: T -> int)
    requires forall x :: key(x).Some?
    ensures Tallied(h, key) == |h|
    ensures TalliedRevenue(h, key, weight) == SumBy(h, weight)
    decreases |h|
  {
    if h != [] {
      TalliedAll(h[1..], key, weight);
    }
  }

  /** A record filed under `k` makes the count under `k` positive. */
  lemma TallyPositive<T>(h: seq<T>, key: T -> Option<string>, k: string, i: int)
    requires 0 <= i < |h| && key(h[i]) == Some(k)
    ensures Tally(h, key, k) > 0
  {
    assert h[i] in Filter(h, x => key(x) == Some(k));
  }

  /** A positive count under `k` comes from some record filed under `k`. */
  lemma TallyWitness<T>(h: seq<T>, key: T -> Option<string>, k: string)
    requires Tally(h, key, k) > 0
    ensures exists i :: 0 <= i < |h| && key(h[i]) == Some(k)
  {
    var r := Filter(h, x => key(x) == Some(k));
    assert r[0] in h;
  }

  /** Two ways of filing that agree on every record of `h` produce the same steps. */
  lemma {:induction false} PairsAgree<T>(h: seq<T>, key1: T -> Option<string>, key2: T -> Option<string>, weight: T -> int)
    requires forall i :: 0 <= i < |h| ==> key1(h[i]) == key2(h[i])
    ensures Pairs(h, key1, weight) == Pairs(h, key2, weight)
    decreases |h|
  {
    if h != [] {
      PairsAgree(h[1..], key1, key2, weight);
    }
  }

  /** Every filed record's key has an entry in the grouped dictionary. */
  lemma GroupCovers<T>(h: seq<T>, key: T -> Option<string>, weight: T -> int, i: int)
    requires 0 <= i < |h| && key(h[i]).Some?
    ensures exists j :: 0 <= j < |Group(Pairs(h, key, weight))| && Some(Group(Pairs(h, key, weight))[j].key) == key(h[i])
  {
    var k := key(h[i]).value;
    TallyPositive(h, key, k, i);
    KeysPairs(h, key, weight, k);
    KeyMember(Group(Pairs(h, key, weight)), k);
  }

  /** One more record adds one to the count under its own key only. */
  lemma TallySnoc<T>(h: seq<T>, x: T, key: T -> Option<string>, k: string)
    ensures Tally(h + [x], key, k) == Tally(h, key, k) + (if key(x) == Some(k) then 1 else 0)
  {
    CountAppend(h, [x], y => key(y) == Some(k));
    CountSingle(x, y => key(y) == Some(k));
  }

  /** One more record adds its weight to the sum under its own key only. */
  lemma RevenueSnoc<T>(h: seq<T>, x: T, key: T -> Option<string>, weight: T -> int, k: string)
    ensures Revenue(h + [x], key, weight, k) == Revenue(h, key, weight, k) + (if key(x) == Some(k) then weight(x) else 0)
  {
    var f := y => if key(y) == Some(k) then weight(y) else 0;
    SumByAppend(h, [x], f);
    assert [x][1..] == [];
  }

  /** A key no record is filed under collects no weight either. */
  lemma {:induction false} RevenueUntallied<T>(h: seq<T>, key: T -> Option<string>, weight: T -> int, k: string)
    requires Tally(h, key, k) == 0
    ensures Revenue(h, key, weight, k) == 0
    decreases |h|
  {
    if h != [] {
      var n := |h| - 1;
      assert h == h[..n] + [h[n]];
      TallySnoc(h[..n], h[n], key, k);
      RevenueSnoc(h[..n], h[n], key, weight, k);
      RevenueUntallied(h[..n], key, weight, k);
    }
  }
}

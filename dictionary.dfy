/**
 * A JavaScript object used as a dictionary (`Record<string, V>`), as the
 * dashboard fills one inside a `forEach`: the list of its own properties in
 * insertion order, which is the order `Object.entries` reports for keys that
 * do not look like array indices.
 */
module Dictionary {
  import opened Wrappers

  datatype Entry<V> = Entry(key: string, value: V)

  function Keys<V>(d: seq<Entry<V>>): set<string> {
    if d == [] then {} else {d[0].key} + Keys(d[1..])
  }

  /** An object never holds the same property twice. */
  ghost predicate DistinctKeys<V>(d: seq<Entry<V>>) {
    d == [] || (d[0].key !in Keys(d[1..]) && DistinctKeys(d[1..]))
  }

  /** `d[k]`, `None` standing for `undefined`. */
  function Find<V>(d: seq<Entry<V>>, k: string): (r: Option<V>)
    ensures r.Some? <==> k in Keys(d)
  {
    if d == [] then None
    else if d[0].key == k then Some(d[0].value)
    else Find(d[1..], k)
  }

  /** `d[k] = v`: overwrites the property in place, or appends a new one at the end. */
  function Put<V>(d: seq<Entry<V>>, k: string, v: V): (r: seq<Entry<V>>)
    ensures Keys(r) == Keys(d) + {k}
    ensures Find(r, k) == Some(v)
    ensures forall j :: j != k ==> Find(r, j) == Find(d, j)
    ensures DistinctKeys(d) ==> DistinctKeys(r)
    ensures k !in Keys(d) ==> r == d + [Entry(k, v)]
  {
    if d == [] then [Entry(k, v)]
    else if d[0].key == k then [Entry(k, v)] + d[1..]
    else [d[0]] + Put(d[1..], k, v)
  }

  lemma {:induction false} KeysAppend<V>(a: seq<Entry<V>>, b: seq<Entry<V>>)
    ensures Keys(a + b) == Keys(a) + Keys(b)
    decreases |a|
  {
    if a == [] {
      assert a + b == b;
    } else {
      assert (a + b)[1..] == a[1..] + b;
      KeysAppend(a[1..], b);
    }
  }

  /** Each property of an object holds the value `Find` reports for its key. */
  lemma {:induction false} FindMember<V>(d: seq<Entry<V>>, i: int)
    requires DistinctKeys(d) && 0 <= i < |d|
    ensures Find(d, d[i].key) == Some(d[i].value)
    decreases |d|
  {
    if i > 0 {
      FindMember(d[1..], i - 1);
      assert d[i].key in Keys(d[1..]);
    }
  }

  /** Every key an object holds is the key of one of its entries. */
  lemma {:induction false} KeyMember<V>(d: seq<Entry<V>>, k: string)
    requires k in Keys(d)
    ensures exists i :: 0 <= i < |d| && d[i].key == k
    decreases |d|
  {
    if d[0].key != k {
      KeyMember(d[1..], k);
      var i :| 0 <= i < |d[1..]| && d[1..][i].key == k;
      assert d[i + 1].key == k;
    }
  }

  /** `d[k] || 0` on a dictionary of numbers. */
  function Get(d: seq<Entry<int>>, k: string): int {
    Find(d, k).GetOr(0)
  }

  /** `d[k] = (d[k] || 0) + w`. */
  function Bump(d: seq<Entry<int>>, k: string, w: int): seq<Entry<int>> {
    Put(d, k, Get(d, k) + w)
  }

  /** The sum of the values of a list of entries. */
  function Total(d: seq<Entry<int>>): int {
    if d == [] then 0 else d[0].value + Total(d[1..])
  }

  /** The sum of the values of the entries whose key is `k`. */
  function WeightOf(d: seq<Entry<int>>, k: string): int {
    if d == [] then 0 else (if d[0].key == k then d[0].value else 0) + WeightOf(d[1..], k)
  }

  lemma {:induction false} TotalAppend(a: seq<Entry<int>>, b: seq<Entry<int>>)
    ensures Total(a + b) == Total(a) + Total(b)
    ensures forall k :: WeightOf(a + b, k) == WeightOf(a, k) + WeightOf(b, k)
    decreases |a|
  {
    if a == [] {
      assert a + b == b;
    } else {
      assert (a + b)[1..] == a[1..] + b;
      TotalAppend(a[1..], b);
    }
  }

  /** Overwriting one property changes the total by the difference. */
  lemma {:induction false} TotalPut(d: seq<Entry<int>>, k: string, v: int)
    ensures Total(Put(d, k, v)) == Total(d) - Get(d, k) + v
    decreases |d|
  {
    if d != [] && d[0].key != k {
      TotalPut(d[1..], k, v);
    }
  }

  /**
   * The dictionary built by running `d[key] = (d[key] || 0) + weight` over
   * `pairs` in order, starting from `{}`.
   */
  function Group(pairs: seq<Entry<int>>): (d: seq<Entry<int>>)
    ensures DistinctKeys(d)
    ensures Keys(d) == Keys(pairs)
    ensures forall k :: Get(d, k) == WeightOf(pairs, k)
    ensures Total(d) == Total(pairs)
    decreases |pairs|
  {
    if pairs == [] then []
    else
      var n := |pairs| - 1;
      var prev := Group(pairs[..n]);
      var p := pairs[n];
      GroupStep(pairs[..n], p, prev);
      assert pairs == pairs[..n] + [p];
      Bump(prev, p.key, p.value)
  }

  /** One more `d[key] = (d[key] || 0) + weight` keeps the dictionary in step with its pairs. */
  lemma GroupStep(pairs: seq<Entry<int>>, p: Entry<int>, prev: seq<Entry<int>>)
    requires DistinctKeys(prev) && Keys(prev) == Keys(pairs)
    requires forall k :: Get(prev, k) == WeightOf(pairs, k)
    requires Total(prev) == Total(pairs)
    ensures DistinctKeys(Bump(prev, p.key, p.value))
    ensures Keys(Bump(prev, p.key, p.value)) == Keys(pairs + [p])
    ensures forall k :: Get(Bump(prev, p.key, p.value), k) == WeightOf(pairs + [p], k)
    ensures Total(Bump(prev, p.key, p.value)) == Total(pairs + [p])
  {
    KeysAppend(pairs, [p]);
    TotalAppend(pairs, [p]);
    TotalPut(prev, p.key, Get(prev, p.key) + p.value);
    forall k ensures Get(Bump(prev, p.key, p.value), k) == WeightOf(pairs + [p], k) {
      assert [p][1..] == [];
      assert WeightOf([p], k) == (if p.key == k then p.value else 0);
    }
  }

  lemma GroupSnoc(pairs: seq<Entry<int>>, p: Entry<int>)
    ensures Group(pairs + [p]) == Bump(Group(pairs), p.key, p.value)
  {
    assert (pairs + [p])[..|pairs|] == pairs;
  }

  /** A key present in the grouped dictionary holds exactly the weight of its pairs. */
  lemma GroupEntry(pairs: seq<Entry<int>>, i: int)
    requires 0 <= i < |Group(pairs)|
    ensures Group(pairs)[i].value == WeightOf(pairs, Group(pairs)[i].key)
    ensures Group(pairs)[i].key in Keys(pairs)
  {
    var d := Group(pairs);
    FindMember(d, i);
    assert Get(d, d[i].key) == d[i].value;
    assert d[i].key in Keys(d) by { KeysIndex(d, i); }
  }

  lemma {:induction false} KeysIndex<V>(d: seq<Entry<V>>, i: int)
    requires 0 <= i < |d|
    ensures d[i].key in Keys(d)
    decreases |d|
  {
    if i > 0 {
      KeysIndex(d[1..], i - 1);
    }
  }

  /** No two entries of an object share a key. */
  lemma {:induction false} DistinctKeysAt<V>(d: seq<Entry<V>>, i: int, j: int)
    requires DistinctKeys(d) && 0 <= i < j < |d|
    ensures d[i].key != d[j].key
    decreases |d|
  {
    if i == 0 {
      KeysIndex(d[1..], j - 1);
    } else {
      DistinctKeysAt(d[1..], i - 1, j - 1);
    }
  }

  /** An object has as many entries as distinct keys. */
  lemma {:induction false} DistinctKeysCard<V>(d: seq<Entry<V>>)
    requires DistinctKeys(d)
    ensures |Keys(d)| == |d|
    decreases |d|
  {
    if d != [] {
      DistinctKeysCard(d[1..]);
    }
  }

  /** Writing a property twice leaves the second value, in the place of the first write. */
  lemma {:induction false} PutPut<V>(d: seq<Entry<V>>, k: string, v1: V, v2: V)
    ensures Put(Put(d, k, v1), k, v2) == Put(d, k, v2)
    decreases |d|
  {
    if d != [] && d[0].key != k {
      PutPut(d[1..], k, v1, v2);
    }
  }
}

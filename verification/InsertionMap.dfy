/**
 The JavaScript `Map`: a sequence of entries with distinct keys, kept in
 insertion order. Setting an existing key keeps its place; deleting closes the gap.
 */
module InsertionMap {
  import opened Wrappers
  import opened Sums
  import opened StableSort

  datatype Entry<+K, +V> = Entry(key: K, value: V)

  ghost predicate Distinct<K, V>(m: seq<Entry<K, V>>) {
    forall i, j | 0 <= i < j < |m| :: m[i].key != m[j].key
  }

  ghost predicate HasKey<K, V>(m: seq<Entry<K, V>>, k: K) {
    exists i :: 0 <= i < |m| && m[i].key == k
  }

  /** The position of the key, or the size of the map. */
  function Find<K(==), V>(m: seq<Entry<K, V>>, k: K): (i: nat)
    ensures i <= |m|
    ensures i < |m| ==> m[i].key == k
    ensures forall j | 0 <= j < i :: m[j].key != k
    ensures i < |m| <==> HasKey(m, k)
  {
    if m == [] then 0 else if m[0].key == k then 0 else 1 + Find(m[1..], k)
  }

  function Get<K(==), V>(m: seq<Entry<K, V>>, k: K): Option<V> {
    var i := Find(m, k);
    if i < |m| then Some(m[i].value) else None
  }

  function Set<K(==), V>(m: seq<Entry<K, V>>, k: K, v: V): (r: seq<Entry<K, V>>)
    ensures HasKey(m, k) ==> |r| == |m|
    ensures !HasKey(m, k) ==> r == m + [Entry(k, v)]
  {
    var i := Find(m, k);
    if i < |m| then m[i := Entry(k, v)] else m + [Entry(k, v)]
  }

  function Delete<K(==), V>(m: seq<Entry<K, V>>, k: K): (r: seq<Entry<K, V>>)
    ensures !HasKey(m, k) ==> r == m
  {
    var i := Find(m, k);
    if i < |m| then m[..i] + m[i + 1..] else m
  }

  lemma SetGet<K, V>(m: seq<Entry<K, V>>, k: K, v: V)
    requires Distinct(m)
    ensures Distinct(Set(m, k, v))
    ensures Get(Set(m, k, v), k) == Some(v)
    ensures forall k' | k' != k :: Get(Set(m, k, v), k') == Get(m, k')
  {
    var i, r := Find(m, k), Set(m, k, v);
    assert r[i] == Entry(k, v);
    assert Distinct(r);
    UniquePosition(r, i);
    assert forall j | 0 <= j < |r| && j != i :: r[j] == m[j];
    forall k' | k' != k
      ensures Get(r, k') == Get(m, k')
    {
      var j := Find(m, k');
      if j < |m| {
        UniquePosition(r, j);
      }
    }
  }

  lemma UniquePosition<K, V>(m: seq<Entry<K, V>>, i: nat)
    requires Distinct(m) && i < |m|
    ensures Find(m, m[i].key) == i && Get(m, m[i].key) == Some(m[i].value)
  {
  }

  lemma DeleteGet<K, V>(m: seq<Entry<K, V>>, k: K)
    requires Distinct(m)
    ensures Distinct(Delete(m, k))
    ensures Get(Delete(m, k), k) == None
    ensures forall k' | k' != k :: Get(Delete(m, k), k') == Get(m, k')
  {
    var i, r := Find(m, k), Delete(m, k);
    if i < |m| {
      assert forall j | 0 <= j < |r| :: r[j] == m[if j < i then j else j + 1];
      forall k' | k' != k
        ensures Get(r, k') == Get(m, k')
      {
        var j := Find(m, k');
        if j < |m| {
          var j' := if j < i then j else j - 1;
          assert r[j'] == m[j];
          UniquePosition(r, j');
        }
      }
    }
  }

  /** Deleting the key inserted first drops the first entry. */
  lemma DeleteFirst<K, V>(m: seq<Entry<K, V>>)
    requires Distinct(m) && m != []
    ensures Delete(m, m[0].key) == m[1..] && Distinct(m[1..])
  {
    UniquePosition(m, 0);
  }

  /** Replacing or adding one entry changes a sum by the difference. */
  lemma SetChangesSum<K, V>(m: seq<Entry<K, V>>, k: K, v: V, f: Entry<K, V> -> real)
    requires Distinct(m)
    ensures SumBy(Set(m, k, v), f)
         == SumBy(m, f) + f(Entry(k, v)) - (if Get(m, k).Some? then f(Entry(k, Get(m, k).value)) else 0.0)
  {
    var i := Find(m, k);
    SumByOne(Entry(k, v), f);
    if i < |m| {
      SumAround(m, i, f);
      SumAround(Set(m, k, v), i, f);
      assert Set(m, k, v)[..i] == m[..i] && Set(m, k, v)[i + 1..] == m[i + 1..];
      assert m[i] == Entry(k, m[i].value);
    } else {
      SumByAppend(m, [Entry(k, v)], f);
    }
  }

  lemma InsertKeepsKeys<K, V>(x: Entry<K, V>, s: seq<Entry<K, V>>, rank: Entry<K, V> -> real)
    requires Distinct(s) && !HasKey(s, x.key)
    ensures Distinct(InsertDesc(x, s, rank))
  {
    var r := InsertDesc(x, s, rank);
    var at := InsertedAt(x, s, rank);
    forall i, j | 0 <= i < j < |r|
      ensures r[i].key != r[j].key
    {
      assert r[i] == if i < at then s[i] else if i == at then x else s[i - 1];
      assert r[j] == if j < at then s[j] else if j == at then x else s[j - 1];
    }
  }

  /** Sorting the entries of a map changes neither its keys nor their values. */
  lemma SortKeepsMap<K, V>(m: seq<Entry<K, V>>, rank: Entry<K, V> -> real)
    requires Distinct(m)
    ensures Distinct(SortDesc(m, rank))
    ensures forall k :: Get(SortDesc(m, rank), k) == Get(m, k)
  {
    SortKeepsDistinct(m, rank);
    SortDescSorts(m, rank);
    var r := SortDesc(m, rank);
    forall i | 0 <= i < |r|
      ensures HasKey(m, r[i].key)
    {
      assert r[i] in multiset(m);
      var j :| 0 <= j < |m| && m[j] == r[i];
    }
    forall k
      ensures Get(r, k) == Get(m, k)
    {
      if HasKey(m, k) {
        var e := m[Find(m, k)];
        assert e in multiset(r);
        var i :| 0 <= i < |r| && r[i] == e;
        UniquePosition(r, i);
      }
    }
  }

  lemma {:induction false} SortKeepsDistinct<K, V>(m: seq<Entry<K, V>>, rank: Entry<K, V> -> real)
    requires Distinct(m)
    ensures Distinct(SortDesc(m, rank))
    decreases |m|
  {
    if m != [] {
      var front, x := m[..|m| - 1], m[|m| - 1];
      SortKeepsDistinct(front, rank);
      SortDescSorts(front, rank);
      var r := SortDesc(front, rank);
      forall i | 0 <= i < |r|
        ensures r[i].key != x.key
      {
        assert r[i] in multiset(front);
        var j :| 0 <= j < |front| && front[j] == r[i];
        assert m[j] == front[j];
      }
      InsertKeepsKeys(x, r, rank);
    }
  }
}

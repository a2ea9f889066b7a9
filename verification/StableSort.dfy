/**
 JavaScript's `sort` with a numeric key in descending order: a stable sort.
*/
module StableSort {
  import opened Sums

  function InsertDesc<T>(x: T, s: seq<T>, key: T -> real): seq<T> {
    if s == [] then [x]
    else if key(s[0]) >= key(x) then [s[0]] + InsertDesc(x, s[1..], key)
    else [x] + s
  }

  /** Elements in descending key order; equal keys keep their order. */
  function SortDesc<T>(s: seq<T>, key: T -> real): seq<T> {
    if s == [] then [] else InsertDesc(s[|s| - 1], SortDesc(s[..|s| - 1], key), key)
  }

  ghost predicate Descending<T>(s: seq<T>, key: T -> real) {
    forall i, j | 0 <= i < j < |s| :: key(s[i]) >= key(s[j])
  }

  function WithKey<T>(s: seq<T>, key: T -> real, v: real): seq<T> {
    if s == [] then []
    else if key(s[0]) == v then [s[0]] + WithKey(s[1..], key, v)
    else WithKey(s[1..], key, v)
  }

  lemma {:induction false} InsertDescKeeps<T>(x: T, s: seq<T>, key: T -> real)
    ensures multiset(InsertDesc(x, s, key)) == multiset(s) + multiset{x}
    decreases |s|
  {
    if s != [] {
      assert s == [s[0]] + s[1..];
      InsertDescKeeps(x, s[1..], key);
    }
  }

  /** Where the element lands; everything else keeps its order. */
  lemma {:induction false} InsertedAt<T>(x: T, s: seq<T>, key: T -> real) returns (at: nat)
    ensures at <= |s| && InsertDesc(x, s, key) == s[..at] + [x] + s[at..]
    decreases |s|
  {
    if s == [] || key(s[0]) < key(x) {
      at := 0;
    } else {
      at := InsertedAt(x, s[1..], key);
      at := at + 1;
      assert s[..at] == [s[0]] + s[1..][..at - 1] && s[at..] == s[1..][at - 1..];
    }
  }

  lemma {:induction false} InsertDescSorted<T>(x: T, s: seq<T>, key: T -> real)
    requires Descending(s, key)
    ensures Descending(InsertDesc(x, s, key), key)
    decreases |s|
  {
    if s != [] && key(s[0]) >= key(x) {
      var rest := InsertDesc(x, s[1..], key);
      InsertDescSorted(x, s[1..], key);
      InsertDescKeeps(x, s[1..], key);
      forall i | 0 <= i < |rest|
        ensures key(s[0]) >= key(rest[i])
      {
        assert rest[i] in multiset(rest);
        assert rest[i] == x || rest[i] in s[1..];
      }
    }
  }

  lemma {:induction false} SortDescSorts<T>(s: seq<T>, key: T -> real)
    ensures Descending(SortDesc(s, key), key)
    ensures multiset(SortDesc(s, key)) == multiset(s)
    ensures |SortDesc(s, key)| == |s|
    decreases |s|
  {
    if s != [] {
      assert s == s[..|s| - 1] + [s[|s| - 1]];
      SortDescSorts(s[..|s| - 1], key);
      InsertDescSorted(s[|s| - 1], SortDesc(s[..|s| - 1], key), key);
      InsertDescKeeps(s[|s| - 1], SortDesc(s[..|s| - 1], key), key);
    }
    assert |multiset(SortDesc(s, key))| == |SortDesc(s, key)| && |multiset(s)| == |s|;
  }

  lemma {:induction false} WithKeyAppend<T>(a: seq<T>, b: seq<T>, key: T -> real, v: real)
    ensures WithKey(a + b, key, v) == WithKey(a, key, v) + WithKey(b, key, v)
    decreases |a|
  {
    if a == [] {
      assert a + b == b;
    } else {
      WithKeyAppend(a[1..], b, key, v);
      var ra, rb := WithKey(a[1..], key, v), WithKey(b, key, v);
      assert (a + b)[1..] == a[1..] + b && (a + b)[0] == a[0];
      assert ([a[0]] + ra) + rb == [a[0]] + (ra + rb);
    }
  }

  lemma {:induction false} InsertDescIsStable<T>(x: T, s: seq<T>, key: T -> real, v: real)
    requires Descending(s, key)
    ensures WithKey(InsertDesc(x, s, key), key, v) == WithKey(s, key, v) + WithKey([x], key, v)
    decreases |s|
  {
    if s == [] {
      assert [] + WithKey([x], key, v) == WithKey([x], key, v);
    } else if key(s[0]) >= key(x) {
      var rest := InsertDesc(x, s[1..], key);
      InsertDescIsStable(x, s[1..], key, v);
      assert ([s[0]] + rest)[1..] == rest;
    } else {
      WithKeyAppend([x], s, key, v);
      if v == key(x) {
        LowKeysLackHigherValue(s, key, v);
      }
    }
  }

  lemma {:induction false} LowKeysLackHigherValue<T>(s: seq<T>, key: T -> real, v: real)
    requires Descending(s, key)
    requires s != [] ==> key(s[0]) < v
    ensures WithKey(s, key, v) == []
    decreases |s|
  {
    if |s| > 1 {
      assert key(s[0]) >= key(s[1]);
    }
    if s != [] {
      LowKeysLackHigherValue(s[1..], key, v);
    }
  }

  /** Equal keys keep the order they had. */
  lemma {:induction false} SortDescIsStable<T>(s: seq<T>, key: T -> real, v: real)
    ensures WithKey(SortDesc(s, key), key, v) == WithKey(s, key, v)
    decreases |s|
  {
    if s != [] {
      var front, last := s[..|s| - 1], s[|s| - 1];
      assert s == front + [last];
      SortDescIsStable(front, key, v);
      SortDescSorts(front, key);
      InsertDescIsStable(last, SortDesc(front, key), key, v);
      WithKeyAppend(front, [last], key, v);
    }
  }

  // ------------------------------------------------------------------- sums

  lemma {:induction false} InsertDescKeepsSum<T>(x: T, s: seq<T>, key: T -> real, f: T -> real)
    ensures SumBy(InsertDesc(x, s, key), f) == SumBy(s, f) + f(x)
    decreases |s|
  {
    SumByOne(x, f);
    if s != [] && key(s[0]) >= key(x) {
      var rest := InsertDesc(x, s[1..], key);
      InsertDescKeepsSum(x, s[1..], key, f);
      assert ([s[0]] + rest)[1..] == rest;
    } else {
      SumByAppend([x], s, f);
    }
  }

  /** Sorting does not change a sum. */
  lemma {:induction false} SortDescKeepsSum<T>(s: seq<T>, key: T -> real, f: T -> real)
    ensures SumBy(SortDesc(s, key), f) == SumBy(s, f)
    decreases |s|
  {
    if s != [] {
      var front, last := s[..|s| - 1], s[|s| - 1];
      assert s == front + [last];
      SortDescKeepsSum(front, key, f);
      InsertDescKeepsSum(last, SortDesc(front, key), key, f);
      SumByAppend(front, [last], f);
      SumByOne(last, f);
    }
  }
}

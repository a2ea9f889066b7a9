/** Sums of a real-valued quantity over a sequence. */
module Sums {

  function SumBy<T>(s: seq<T>, f: T -> real): real {
    if s == [] then 0.0 else f(s[0]) + SumBy(s[1..], f)
  }

  lemma {:induction false} SumByAppend<T>(a: seq<T>, b: seq<T>, f: T -> real)
    ensures SumBy(a + b, f) == SumBy(a, f) + SumBy(b, f)
    decreases |a|
  {
    if a == [] {
      assert a + b == b;
    } else {
      assert (a + b)[1..] == a[1..] + b;
      SumByAppend(a[1..], b, f);
    }
  }

  lemma SumByOne<T>(x: T, f: T -> real)
    ensures SumBy([x], f) == f(x)
  {
    assert [x][1..] == [];
  }

  lemma {:induction false} SumAround<T>(s: seq<T>, i: nat, f: T -> real)
    requires i < |s|
    ensures SumBy(s, f) == SumBy(s[..i], f) + f(s[i]) + SumBy(s[i + 1..], f)
    decreases i
  {
    if i > 0 {
      SumAround(s[1..], i - 1, f);
      assert s[..i][1..] == s[1..][..i - 1] && s[1..][i..] == s[i + 1..];
    }
  }
}

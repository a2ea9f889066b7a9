/**
 A/B variant selection (src/campaigns/ab-test-engine.ts, `seededRandom`,
 `selectVariant`): a wrapping 32-bit string hash, reduced to a million residues,
 and a weighted choice over cumulative weights. Fractions are exact.
 */
module VariantSelection {
  import opened Wrappers

  // A UTF-16 code unit, as `charCodeAt` returns it.
  type CodeUnit = c: int | 0 <= c < 0x1_0000

  const TWO_31 := 0x8000_0000
  const TWO_32 := 0x1_0000_0000
  const RESIDUES := 1_000_000

  datatype Variant = Variant(id: string, template: string, weight: real)

  // --------------------------------------------------------------- the hash

  /** The `| 0` of JavaScript: the signed 32-bit representative of an integer. */
  function ToInt32(x: int): int {
    (x + TWO_31) % TWO_32 - TWO_31
  }

  /** JavaScript's `x << 5` on a 32-bit value. */
  function ShiftLeft5(x: int): int {
    ToInt32(ToInt32(x) * 32)
  }

  /** The base-31 polynomial of the seed, over the unbounded integers. */
  function Polynomial(seed: seq<CodeUnit>): int {
    if seed == [] then 0 else 31 * Polynomial(seed[..|seed| - 1]) + seed[|seed| - 1]
  }

  function Power31(n: nat): nat {
    if n == 0 then 1 else 31 * Power31(n - 1)
  }

  /** Each code unit counts with a power of 31 given by its distance from the end of the seed. */
  lemma {:induction false} PolynomialOfParts(a: seq<CodeUnit>, b: seq<CodeUnit>)
    ensures Polynomial(a + b) == Polynomial(a) * Power31(|b|) + Polynomial(b)
    decreases |b|
  {
    if b == [] {
      assert a + b == a;
    } else {
      var front, last := b[..|b| - 1], b[|b| - 1];
      PolynomialOfParts(a, front);
      assert a + b == (a + front) + [last] && (a + b)[..|a + b| - 1] == a + front;
      TimesPower(Polynomial(a), Power31(|front|));
    }
  }

  lemma TimesPower(x: int, y: int)
    ensures 31 * (x * y) == x * (31 * y)
  {
  }

  lemma PolynomialOfOne(c: CodeUnit)
    ensures Polynomial([c]) == c
  {
    assert [c][..0] == [];
  }

  function Abs(x: int): nat {
    if x < 0 then -x else x
  }

  lemma ToInt32Congruent(x: int)
    ensures (ToInt32(x) - x) % TWO_32 == 0
    ensures -TWO_31 <= ToInt32(x) < TWO_31
  {
    var q := (x + TWO_31) / TWO_32;
    assert ToInt32(x) - x == -q * TWO_32;
    MultipleOf(-q);
  }

  lemma MultipleOf(q: int)
    ensures (q * TWO_32) % TWO_32 == 0
  {
  }

  /** Congruent integers have the same 32-bit representative. */
  lemma ToInt32Shift(x: int, q: int)
    ensures ToInt32(x + q * TWO_32) == ToInt32(x)
  {
    var y := x + TWO_31;
    assert (y + q * TWO_32) % TWO_32 == y % TWO_32;
  }

  /** One round of the loop computes 31 * hash + c, wrapped. */
  lemma HashStep(x: int, c: int)
    ensures ToInt32(ShiftLeft5(ToInt32(x)) - ToInt32(x) + c) == ToInt32(31 * x + c)
  {
    var q := (x + TWO_31) / TWO_32;
    var h := ToInt32(x);
    assert h == x - q * TWO_32;
    assert ToInt32(h) == h;
    var p := (h * 32 + TWO_31) / TWO_32;
    assert ShiftLeft5(h) == h * 32 - p * TWO_32;
    assert ShiftLeft5(h) - h + c == 31 * x + c + (-31 * q - p) * TWO_32;
    ToInt32Shift(31 * x + c, -31 * q - p);
  }

  /** The seeded pseudo-random number, in millionths. */
  function Residue(seed: seq<CodeUnit>): (r: nat)
    ensures r < RESIDUES
  {
    Abs(ToInt32(Polynomial(seed))) % RESIDUES
  }

  /** The shift-subtract-truncate loop: the 32-bit integer congruent to the polynomial, reduced to a fraction. */
  method SeededRandom(seed: seq<CodeUnit>) returns (random: real, ghost hash: int)
    ensures hash == ToInt32(Polynomial(seed))
    ensures (hash - Polynomial(seed)) % TWO_32 == 0 && -TWO_31 <= hash < TWO_31
    ensures random == Residue(seed) as real / RESIDUES as real
    ensures 0.0 <= random < 1.0
  {
    var h := 0;
    var i := 0;
    while i < |seed|
      invariant 0 <= i <= |seed|
      invariant h == ToInt32(Polynomial(seed[..i]))
    {
      var c := seed[i];
      assert seed[..i + 1][..i] == seed[..i];
      HashStep(Polynomial(seed[..i]), c);
      h := ShiftLeft5(h) - h + c;
      h := ToInt32(h);
      i := i + 1;
    }
    assert seed[..|seed|] == seed;
    hash := h;
    ToInt32Congruent(Polynomial(seed));
    random := (Abs(h) % RESIDUES) as real / RESIDUES as real;
  }

  // ----------------------------------------------------------- the selection

  /** The sum of the first `n` weights. */
  function Cumulative(variants: seq<Variant>, n: nat): real
    requires n <= |variants|
  {
    if n == 0 then 0.0 else Cumulative(variants, n - 1) + variants[n - 1].weight
  }

  /** The loop's test at variant `j`. */
  predicate Below(variants: seq<Variant>, rand: real, j: nat)
    requires j < |variants|
  {
    rand < Cumulative(variants, j + 1)
  }

  /** `i` is the first variant whose cumulative weight exceeds `rand`; or the last one if none does. */
  predicate IsSelected(variants: seq<Variant>, rand: real, i: nat) {
    && i < |variants|
    && (forall j | 0 <= j < i :: !Below(variants, rand, j))
    && (Below(variants, rand, i) || i == |variants| - 1)
  }

  /** The first variant, from `i` on, whose cumulative weight exceeds `rand`; or the last one. */
  function FirstBelow(variants: seq<Variant>, rand: real, i: nat): (r: nat)
    requires i < |variants|
    ensures i <= r < |variants|
    decreases |variants| - i
  {
    if Below(variants, rand, i) || i == |variants| - 1 then i else FirstBelow(variants, rand, i + 1)
  }

  lemma {:induction false} FirstBelowIsSelected(variants: seq<Variant>, rand: real, i: nat)
    requires i < |variants| && forall j | 0 <= j < i :: !Below(variants, rand, j)
    ensures IsSelected(variants, rand, FirstBelow(variants, rand, i))
    decreases |variants| - i
  {
    if !Below(variants, rand, i) && i < |variants| - 1 {
      FirstBelowIsSelected(variants, rand, i + 1);
    }
  }

  function Percent(residue: nat): real {
    residue as real / RESIDUES as real * 100.0
  }

  datatype Selection = Selected(index: nat, variant: Variant) | EmptyList

  /** The weighted choice; a single variant is chosen without looking at its weight. */
  method SelectVariant(variants: seq<Variant>, seed: seq<CodeUnit>) returns (s: Selection)
    ensures s.EmptyList? <==> variants == []
    ensures s.Selected? ==> s.index < |variants| && s.variant == variants[s.index]
    ensures |variants| >= 2 ==> IsSelected(variants, Percent(Residue(seed)), s.index)
  {
    if |variants| == 0 {
      return EmptyList;
    }
    if |variants| == 1 {
      return Selected(0, variants[0]);
    }
    var random, _ := SeededRandom(seed);
    var rand := random * 100.0;
    var cumulative := 0.0;
    var i := 0;
    while i < |variants|
      invariant 0 <= i <= |variants|
      invariant cumulative == Cumulative(variants, i)
      invariant forall j | 0 <= j < i :: !Below(variants, rand, j)
    {
      cumulative := cumulative + variants[i].weight;
      if rand < cumulative {
        return Selected(i, variants[i]);
      }
      i := i + 1;
    }
    return Selected(|variants| - 1, variants[|variants| - 1]);
  }

  lemma SelectionIsUnique(variants: seq<Variant>, rand: real, i: nat, j: nat)
    requires IsSelected(variants, rand, i) && IsSelected(variants, rand, j)
    ensures i == j
  {
  }

  // ------------------------------------------------- how often each is chosen

  /** Weights are non-negative whole percentages that sum to 100. */
  ghost predicate WholePercentages(variants: seq<Variant>, weights: seq<nat>) {
    && |weights| == |variants|
    && (forall i | 0 <= i < |variants| :: variants[i].weight == weights[i] as real)
    && Sum(weights, |weights|) == 100
  }

  function Sum(weights: seq<nat>, n: nat): nat
    requires n <= |weights|
  {
    if n == 0 then 0 else Sum(weights, n - 1) + weights[n - 1]
  }

  lemma {:induction false} CumulativeIsSum(variants: seq<Variant>, weights: seq<nat>, n: nat)
    requires |weights| == |variants| && n <= |variants|
    requires forall i | 0 <= i < |variants| :: variants[i].weight == weights[i] as real
    ensures Cumulative(variants, n) == Sum(weights, n) as real
  {
    if n > 0 {
      CumulativeIsSum(variants, weights, n - 1);
    }
  }

  lemma {:induction false} SumMonotone(weights: seq<nat>, m: nat, n: nat)
    requires m <= n <= |weights|
    ensures Sum(weights, m) <= Sum(weights, n)
  {
    if m < n {
      SumMonotone(weights, m, n - 1);
    }
  }

  lemma PercentBelow(residue: nat, w: nat)
    ensures Percent(residue) < w as real <==> residue < 10_000 * w
  {
    assert Percent(residue) == residue as real / 10_000.0;
    assert residue as real / 10_000.0 < w as real <==> residue as real < w as real * 10_000.0;
    assert w as real * 10_000.0 == (10_000 * w) as real;
  }

  /** A residue selects variant `i` exactly when it lies in the variant's own slice of the million. */
  lemma SliceOfVariant(variants: seq<Variant>, weights: seq<nat>, residue: nat, i: nat)
    requires |variants| >= 2 && WholePercentages(variants, weights)
    requires residue < RESIDUES && i < |variants|
    ensures IsSelected(variants, Percent(residue), i)
       <==> 10_000 * Sum(weights, i) <= residue < 10_000 * Sum(weights, i + 1)
    ensures IsSelected(variants, Percent(residue), i) ==> Below(variants, Percent(residue), i)
  {
    var rand := Percent(residue);
    forall j | 0 <= j < |variants|
      ensures Below(variants, rand, j) <==> residue < 10_000 * Sum(weights, j + 1)
    {
      CumulativeIsSum(variants, weights, j + 1);
      PercentBelow(residue, Sum(weights, j + 1));
    }
    if 10_000 * Sum(weights, i) <= residue {
      forall j | 0 <= j < i
        ensures !Below(variants, rand, j)
      {
        SumMonotone(weights, j + 1, i);
      }
    }
    if IsSelected(variants, rand, i) && i > 0 {
      assert !Below(variants, rand, i - 1);
    }
  }

  /** The residues that select variant `i`. */
  ghost function ResiduesOf(variants: seq<Variant>, i: nat): set<nat> {
    set r: nat | r < RESIDUES && IsSelected(variants, Percent(r), i)
  }

  ghost function Interval(lo: nat, hi: nat): (s: set<nat>)
    requires lo <= hi
    ensures forall r :: r in s <==> lo <= r < hi
    ensures |s| == hi - lo
    decreases hi
  {
    if lo == hi then {} else Interval(lo, hi - 1) + {hi - 1}
  }

  /**
   With whole percentages summing to 100, exactly 10000 * w of the million
   residues select a variant of weight w, and the last-variant fallback is
   never what selects it.
   */
  lemma SelectionIsProportional(variants: seq<Variant>, weights: seq<nat>, i: nat)
    requires |variants| >= 2 && WholePercentages(variants, weights) && i < |variants|
    ensures |ResiduesOf(variants, i)| == 10_000 * weights[i]
    ensures forall r | r in ResiduesOf(variants, i) :: Below(variants, Percent(r), i)
  {
    var lo, hi := 10_000 * Sum(weights, i), 10_000 * Sum(weights, i + 1);
    SumMonotone(weights, i + 1, |weights|);
    forall r: nat | r < RESIDUES
      ensures IsSelected(variants, Percent(r), i) <==> lo <= r < hi
      ensures IsSelected(variants, Percent(r), i) ==> Below(variants, Percent(r), i)
    {
      SliceOfVariant(variants, weights, r, i);
    }
    assert ResiduesOf(variants, i) == Interval(lo, hi);
  }
}

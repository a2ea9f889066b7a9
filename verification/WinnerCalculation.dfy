/**
 The chi-square test between the two best variants (src/campaigns/ab-test-engine.ts,
 `chiSquare2x2`, `calculateWinner`). Rates and the statistic are exact.
 */
module WinnerCalculation {
  import opened Wrappers
  import opened StableSort
  import opened Sums

  datatype VariantMetrics = VariantMetrics(variantId: string, totalSent: int, totalReplies: int, replyRate: real)

  datatype Winner = Winner(variant: Option<VariantMetrics>, confidence: real)

  /** (observed - expected)^2 / expected */
  function Term(observed: real, expected: real): real
    requires expected != 0.0
  {
    (observed - expected) * (observed - expected) / expected
  }

  /** The expected value of a cell. */
  function Expected(row: real, col: real, n: real): real
    requires n != 0.0
  {
    row * col / n
  }

  function ChiSquare2x2(aSuccess: int, aTotal: int, bSuccess: int, bTotal: int): real {
    var total := (aTotal + bTotal) as real;
    if total == 0.0 then 0.0
    else
      var totalSuccess := (aSuccess + bSuccess) as real;
      var totalFail := ((aTotal - aSuccess) + (bTotal - bSuccess)) as real;
      if totalSuccess == 0.0 || totalFail == 0.0 then 0.0
      else
        var eAS := Expected(aTotal as real, totalSuccess, total);
        var eAF := Expected(aTotal as real, totalFail, total);
        var eBS := Expected(bTotal as real, totalSuccess, total);
        var eBF := Expected(bTotal as real, totalFail, total);
        if eAS == 0.0 || eAF == 0.0 || eBS == 0.0 || eBF == 0.0 then 0.0
        else
          Term(aSuccess as real, eAS) + Term((aTotal - aSuccess) as real, eAF)
          + Term(bSuccess as real, eBS) + Term((bTotal - bSuccess) as real, eBF)
  }

  // -------------------------------------------------------------- closed form

  /** A 2x2 table with all four margins positive. */
  predicate PositiveMargins(a: real, b: real, c: real, d: real) {
    a + b > 0.0 && c + d > 0.0 && a + c > 0.0 && b + d > 0.0
  }

  /** The product of the four margins. */
  function Margins(a: real, b: real, c: real, d: real): (m: real)
    requires PositiveMargins(a, b, c, d)
    ensures m > 0.0
  {
    Times(Times(a + b, c + d), Times(a + c, b + d))
  }

  function Times(x: real, y: real): (r: real)
    requires x > 0.0 && y > 0.0
    ensures r > 0.0
  {
    ProductPositive(x, y);
    x * y
  }

  /** N (ad - bc)^2 over the product of the margins. */
  function ClosedForm(a: real, b: real, c: real, d: real): real
    requires PositiveMargins(a, b, c, d)
  {
    Ratio(a + b + c + d, a * d - b * c, Margins(a, b, c, d))
  }

  function Ratio(n: real, det: real, margins: real): real
    requires margins != 0.0
  {
    n * (det * det) / margins
  }

  lemma ProductPositive(x: real, y: real)
    requires x > 0.0 && y > 0.0
    ensures x * y > 0.0
  {
  }

  /** Every cell deviates from its expectation by the same amount, det / N. */
  lemma Deviation(cell: real, row: real, col: real, n: real, det: real)
    requires n > 0.0 && cell * n - row * col == det
    ensures cell - row * col / n == det / n
  {
    assert (cell - row * col / n) * n == cell * n - row * col;
    assert (det / n) * n == det;
  }

  /** One term of the sum is det^2 / (N * row * col). */
  lemma TermValue(cell: real, row: real, col: real, n: real, det: real) returns (t: real)
    requires n > 0.0 && row > 0.0 && col > 0.0
    requires cell * n - row * col == det || cell * n - row * col == -det
    ensures row * col > 0.0 && Expected(row, col, n) > 0.0
    ensures t == Term(cell, Expected(row, col, n)) && t * n * (row * col) == det * det
  {
    ProductPositive(row, col);
    var x := cell * n - row * col;
    var e := row * col / n;
    Quotient(row * col, n);
    Deviation(cell, row, col, n, x);
    var q := x / n;
    assert q * n == x;
    t := Term(cell, e);
    assert t == q * q / e;
    Quotient2(q * q, e);
    assert t * e == q * q;
    assert e * n == row * col;
    TermScaled(t, e, n, q, row * col);
    assert x * x == det * det;
  }

  lemma Quotient(x: real, n: real)
    requires x > 0.0 && n > 0.0
    ensures x / n > 0.0 && (x / n) * n == x
  {
  }

  lemma Quotient2(x: real, e: real)
    requires e != 0.0
    ensures (x / e) * e == x
  {
  }

  lemma TermScaled(t: real, e: real, n: real, q: real, p: real)
    requires t * e == q * q && e * n == p
    ensures t * n * p == (q * n) * (q * n)
  {
    assert t * n * p == (t * e) * n * n;
  }

  /** Four terms t_i with t_i * N * row_i * col_i = D add up to N * D over the product of the margins. */
  lemma SumOfTerms(t1: real, t2: real, t3: real, t4: real, r1: real, r2: real, c1: real, c2: real, n: real, sq: real,
                   m: real)
    requires r1 > 0.0 && r2 > 0.0 && c1 > 0.0 && c2 > 0.0 && n == r1 + r2 && n == c1 + c2
    requires t1 * n * (r1 * c1) == sq && t2 * n * (r1 * c2) == sq
    requires t3 * n * (r2 * c1) == sq && t4 * n * (r2 * c2) == sq
    requires m == (r1 * r2) * (c1 * c2)
    ensures (t1 + t2 + t3 + t4) * m == n * sq
  {
    assert t1 * n * m == sq * (r2 * c2);
    assert t2 * n * m == sq * (r2 * c1);
    assert t3 * n * m == sq * (r1 * c2);
    assert t4 * n * m == sq * (r1 * c1);
    assert (t1 + t2 + t3 + t4) * n * m == sq * (r2 * c2) + sq * (r2 * c1) + sq * (r1 * c2) + sq * (r1 * c1);
    assert n * n == r2 * c2 + r2 * c1 + r1 * c2 + r1 * c1;
    assert (t1 + t2 + t3 + t4) * m * n == sq * n * n;
    CancelFactor((t1 + t2 + t3 + t4) * m, sq * n, n);
  }

  lemma CancelFactor(x: real, y: real, n: real)
    requires n > 0.0 && x * n == y * n
    ensures x == y
  {
  }

  /** a variant's failures and successes, as reals */
  lemma CellIdentity(a: real, b: real, c: real, d: real)
    ensures a * (a + b + c + d) - (a + b) * (a + c) == a * d - b * c
    ensures b * (a + b + c + d) - (a + b) * (b + d) == -(a * d - b * c)
    ensures c * (a + b + c + d) - (c + d) * (a + c) == -(a * d - b * c)
    ensures d * (a + b + c + d) - (c + d) * (b + d) == a * d - b * c
  {
  }

  /** The four terms, over the reals. */
  lemma FourTerms(a: real, b: real, c: real, d: real)
    requires PositiveMargins(a, b, c, d)
    ensures var n := a + b + c + d;
            && Expected(a + b, a + c, n) > 0.0 && Expected(a + b, b + d, n) > 0.0
            && Expected(c + d, a + c, n) > 0.0 && Expected(c + d, b + d, n) > 0.0
            && Term(a, Expected(a + b, a + c, n)) + Term(b, Expected(a + b, b + d, n))
               + Term(c, Expected(c + d, a + c, n)) + Term(d, Expected(c + d, b + d, n)) == ClosedForm(a, b, c, d)
  {
    CellIdentity(a, b, c, d);
    TermsOverMargins(a, b, c, d, a + b, c + d, a + c, b + d, a + b + c + d, a * d - b * c);
  }

  lemma TermsOverMargins(a: real, b: real, c: real, d: real, r1: real, r2: real, c1: real, c2: real, n: real, det: real)
    requires r1 > 0.0 && r2 > 0.0 && c1 > 0.0 && c2 > 0.0 && n == r1 + r2 && n == c1 + c2
    requires a * n - r1 * c1 == det && b * n - r1 * c2 == -det
    requires c * n - r2 * c1 == -det && d * n - r2 * c2 == det
    ensures Expected(r1, c1, n) > 0.0 && Expected(r1, c2, n) > 0.0 && Expected(r2, c1, n) > 0.0
              && Expected(r2, c2, n) > 0.0
    ensures Term(a, Expected(r1, c1, n)) + Term(b, Expected(r1, c2, n))
            + Term(c, Expected(r2, c1, n)) + Term(d, Expected(r2, c2, n))
         == Ratio(n, det, Times(Times(r1, r2), Times(c1, c2)))
  {
    var t1 := TermValue(a, r1, c1, n, det);
    var t2 := TermValue(b, r1, c2, n, det);
    var t3 := TermValue(c, r2, c1, n, det);
    var t4 := TermValue(d, r2, c2, n, det);
    var m := ProductOfMargins(r1, r2, c1, c2);
    SumOfTerms(t1, t2, t3, t4, r1, r2, c1, c2, n, det * det, m);
    DivideBy(t1 + t2 + t3 + t4, m, n * (det * det));
  }

  /** With positive margins the four-term sum has the closed form N (ad - bc)^2 / (product of margins). */
  lemma ChiSquareClosedForm(aSuccess: int, aTotal: int, bSuccess: int, bTotal: int)
    requires PositiveMargins(aSuccess as real, (aTotal - aSuccess) as real, bSuccess as real,
              (bTotal - bSuccess) as real)
    ensures ChiSquare2x2(aSuccess, aTotal, bSuccess, bTotal)
         == ClosedForm(aSuccess as real, (aTotal - aSuccess) as real, bSuccess as real, (bTotal - bSuccess) as real)
  {
    FourTerms(aSuccess as real, (aTotal - aSuccess) as real, bSuccess as real, (bTotal - bSuccess) as real);
  }

  lemma ProductOfMargins(r1: real, r2: real, c1: real, c2: real) returns (m: real)
    requires r1 > 0.0 && r2 > 0.0 && c1 > 0.0 && c2 > 0.0
    ensures m == Times(Times(r1, r2), Times(c1, c2)) == (r1 * r2) * (c1 * c2)
  {
    m := Times(Times(r1, r2), Times(c1, c2));
  }

  lemma DivideBy(x: real, m: real, y: real)
    requires m > 0.0 && x * m == y
    ensures x == y / m
  {
  }

  // ------------------------------------------------- range, symmetry, zeros

  lemma NonNegativeProduct(x: real, y: real)
    requires x >= 0.0 && y >= 0.0
    ensures x * y >= 0.0
  {
  }

  /** (ad - bc)^2 is at most the product of the margins. */
  lemma DeterminantBound(a: real, b: real, c: real, d: real)
    requires a >= 0.0 && b >= 0.0 && c >= 0.0 && d >= 0.0
    ensures (a * d - b * c) * (a * d - b * c) <= ((a + b) * (c + d)) * ((a + c) * (b + d))
  {
    var ad, bc := a * d, b * c;
    var p, q, r := ad + bc, a * c + b * d, a * b + c * d;
    NonNegativeProduct(a, d);
    NonNegativeProduct(b, c);
    NonNegativeProduct(a, c);
    NonNegativeProduct(b, d);
    NonNegativeProduct(a, b);
    NonNegativeProduct(c, d);
    assert (a + b) * (c + d) == q + p;
    assert (a + c) * (b + d) == r + p;
    ExpandMargins(ad, bc, q, r);
  }

  lemma ExpandMargins(ad: real, bc: real, q: real, r: real)
    requires ad >= 0.0 && bc >= 0.0 && q >= 0.0 && r >= 0.0
    ensures (ad - bc) * (ad - bc) <= (q + (ad + bc)) * (r + (ad + bc))
  {
    var p := ad + bc;
    NonNegativeProduct(p, q);
    NonNegativeProduct(p, r);
    NonNegativeProduct(q, r);
    NonNegativeProduct(ad, bc);
    assert (q + p) * (r + p) == q * r + q * p + p * r + p * p;
    assert (ad - bc) * (ad - bc) == p * p - 4.0 * (ad * bc);
  }

  lemma RatioRange(n: real, det: real, m: real)
    requires n > 0.0 && m > 0.0 && det * det <= m
    ensures 0.0 <= Ratio(n, det, m) <= n
    ensures Ratio(n, det, m) == 0.0 <==> det == 0.0
  {
    SquareIsZero(det);
    var x := det * det;
    var f := Ratio(n, det, m);
    assert f * m == n * x;
    if x > 0.0 {
      ProductPositive(n, x);
    }
  }

  predicate Counts(success: int, total: int) {
    0 <= success <= total
  }

  lemma ClosedFormRange(a: real, b: real, c: real, d: real)
    requires a >= 0.0 && b >= 0.0 && c >= 0.0 && d >= 0.0 && PositiveMargins(a, b, c, d)
    ensures 0.0 <= ClosedForm(a, b, c, d) <= a + b + c + d
    ensures ClosedForm(a, b, c, d) == 0.0 <==> a * d == b * c
  {
    DeterminantBound(a, b, c, d);
    RatioRange(a + b + c + d, a * d - b * c, Margins(a, b, c, d));
  }

  lemma ChiSquareValue(aSuccess: int, aTotal: int, bSuccess: int, bTotal: int, a: real, b: real, c: real, d: real)
    returns (chi: real)
    requires Counts(aSuccess, aTotal) && Counts(bSuccess, bTotal) && PositiveMargins(a, b, c, d)
    requires a == aSuccess as real && b == (aTotal - aSuccess) as real
    requires c == bSuccess as real && d == (bTotal - bSuccess) as real
    ensures chi == ChiSquare2x2(aSuccess, aTotal, bSuccess, bTotal)
    ensures 0.0 <= chi <= a + b + c + d
    ensures chi == 0.0 <==> a * d == b * c
  {
    ChiSquareClosedForm(aSuccess, aTotal, bSuccess, bTotal);
    chi := ClosedForm(a, b, c, d);
    ClosedFormRange(a, b, c, d);
  }

  lemma SquareIsZero(x: real)
    ensures x * x >= 0.0
    ensures x * x == 0.0 <==> x == 0.0
  {
    if x != 0.0 {
      assert x * x / x == x;
    }
    if x < 0.0 {
      assert x * x == (0.0 - x) * (0.0 - x);
    }
  }

  /** The statistic does not depend on the order of the two variants, whatever the counts. */
  lemma ChiSquareSymmetric(aSuccess: int, aTotal: int, bSuccess: int, bTotal: int)
    ensures ChiSquare2x2(aSuccess, aTotal, bSuccess, bTotal) == ChiSquare2x2(bSuccess, bTotal, aSuccess, aTotal)
  {
    assert aTotal + bTotal == bTotal + aTotal && aSuccess + bSuccess == bSuccess + aSuccess;
  }

  lemma CrossMultiply(x: int, m: int, y: int, n: int)
    requires m > 0 && n > 0
    ensures x as real / m as real == y as real / n as real <==> x as real * n as real == y as real * m as real
  {
    var p, q := x as real / m as real, y as real / n as real;
    assert p * m as real == x as real && q * n as real == y as real;
    assert x as real * n as real == p * (m as real * n as real);
    assert y as real * m as real == q * (m as real * n as real);
    ProductPositive(m as real, n as real);
    if x as real * n as real == y as real * m as real {
      CancelFactor(p, q, m as real * n as real);
    }
  }

  predicate AllMargins(aSuccess: int, aTotal: int, bSuccess: int, bTotal: int) {
    aTotal > 0 && bTotal > 0 && aSuccess + bSuccess > 0 && aTotal - aSuccess + bTotal - bSuccess > 0
  }

  lemma NoMarginsNoStatistic(aSuccess: int, aTotal: int, bSuccess: int, bTotal: int)
    requires Counts(aSuccess, aTotal) && Counts(bSuccess, bTotal) && !AllMargins(aSuccess, aTotal, bSuccess, bTotal)
    ensures ChiSquare2x2(aSuccess, aTotal, bSuccess, bTotal) == 0.0
  {
  }

  lemma EqualRatesCrossMultiply(aSuccess: int, aTotal: int, bSuccess: int, bTotal: int)
    requires aTotal > 0 && bTotal > 0
    ensures aSuccess as real / aTotal as real == bSuccess as real / bTotal as real
       <==> aSuccess as real * (bTotal - bSuccess) as real == (aTotal - aSuccess) as real * bSuccess as real
  {
    CrossMultiply(aSuccess, aTotal, bSuccess, bTotal);
    CrossTerms(aSuccess as real, (aTotal - aSuccess) as real, bSuccess as real, (bTotal - bSuccess) as real,
               aTotal as real, bTotal as real);
  }

  lemma CrossTerms(a: real, b: real, c: real, d: real, m: real, n: real)
    requires m == a + b && n == c + d
    ensures a * n == c * m <==> a * d == b * c
  {
    assert a * n == a * d + a * c;
    assert c * m == c * b + c * a;
  }

  /** With all margins positive the statistic lies between 0 and N, and is 0 exactly when the rates are equal. */
  lemma ChiSquareRange(aSuccess: int, aTotal: int, bSuccess: int, bTotal: int) returns (chi: real)
    requires Counts(aSuccess, aTotal) && Counts(bSuccess, bTotal) && aTotal > 0 && bTotal > 0
    requires aSuccess + bSuccess > 0 && aTotal - aSuccess + bTotal - bSuccess > 0
    ensures chi == ChiSquare2x2(aSuccess, aTotal, bSuccess, bTotal)
    ensures 0.0 <= chi <= (aTotal + bTotal) as real
    ensures chi == 0.0 <==> aSuccess as real / aTotal as real == bSuccess as real / bTotal as real
  {
    chi := ChiSquareValue(aSuccess, aTotal, bSuccess, bTotal,
                          aSuccess as real, (aTotal - aSuccess) as real, bSuccess as real, (bTotal - bSuccess) as real);
    EqualRatesCrossMultiply(aSuccess, aTotal, bSuccess, bTotal);
  }

  lemma ExtremeRates(aSuccess: int, aTotal: int, bSuccess: int, bTotal: int)
    requires Counts(aSuccess, aTotal) && Counts(bSuccess, bTotal) && aTotal > 0 && bTotal > 0
    requires aSuccess + bSuccess == 0 || aTotal - aSuccess + bTotal - bSuccess == 0
    ensures aSuccess as real / aTotal as real == bSuccess as real / bTotal as real
  {
    CrossMultiply(aSuccess, aTotal, bSuccess, bTotal);
  }

  /** The statistic is positive exactly when both variants were sent and their reply rates differ. */
  lemma PositiveMeansDifferentRates(aSuccess: int, aTotal: int, bSuccess: int, bTotal: int)
    requires Counts(aSuccess, aTotal) && Counts(bSuccess, bTotal)
    ensures ChiSquare2x2(aSuccess, aTotal, bSuccess, bTotal) > 0.0
       <==> aTotal > 0 && bTotal > 0 && aSuccess as real / aTotal as real != bSuccess as real / bTotal as real
  {
    if AllMargins(aSuccess, aTotal, bSuccess, bTotal) {
      var chi := ChiSquareRange(aSuccess, aTotal, bSuccess, bTotal);
    } else {
      NoMarginsNoStatistic(aSuccess, aTotal, bSuccess, bTotal);
      if aTotal > 0 && bTotal > 0 {
        ExtremeRates(aSuccess, aTotal, bSuccess, bTotal);
      }
    }
  }

  // ------------------------------------------------------------- the winner

  function CalculateWinner(metrics: seq<VariantMetrics>): Winner {
    if |metrics| < 2 then Winner(None, 0.0)
    else
      SortDescSorts(metrics, RateOf);
      var sorted := SortDesc(metrics, RateOf);
      var best, second := sorted[0], sorted[1];
      var chi2 := ChiSquare2x2(best.totalReplies, best.totalSent, second.totalReplies, second.totalSent);
      var confidence := if chi2 > 6.63 then 0.99 else if chi2 > 3.84 then 0.95 else 0.0;
      if confidence >= 0.95 then Winner(Some(best), confidence) else Winner(None, confidence)
  }

  function RateOf(m: VariantMetrics): real {
    m.replyRate
  }

  /** The reply rate is replies per message sent, and 0 when nothing was sent. */
  predicate RatesConsistent(metrics: seq<VariantMetrics>) {
    forall m | m in metrics ::
      && Counts(m.totalReplies, m.totalSent)
      && m.replyRate == if m.totalSent > 0 then m.totalReplies as real / m.totalSent as real else 0.0
  }

  /** A declared winner has a strictly higher reply rate than every other variant. */
  lemma WinnerBeatsEveryOther(metrics: seq<VariantMetrics>) returns (i: nat)
    requires RatesConsistent(metrics) && CalculateWinner(metrics).variant.Some?
    ensures i < |metrics| && metrics[i] == CalculateWinner(metrics).variant.value
    ensures forall j | 0 <= j < |metrics| && j != i :: metrics[j].replyRate < metrics[i].replyRate
  {
    var sorted := SortDesc(metrics, RateOf);
    SortDescSorts(metrics, RateOf);
    var best, second := sorted[0], sorted[1];
    assert best in multiset(sorted) && second in multiset(sorted);
    PositiveMeansDifferentRates(best.totalReplies, best.totalSent, second.totalReplies, second.totalSent);
    assert RateOf(best) >= RateOf(second);
    i :| 0 <= i < |metrics| && metrics[i] == best;
    forall j | 0 <= j < |metrics| && j != i
      ensures metrics[j].replyRate < best.replyRate
    {
      TwoPositions(metrics, i, j);
      OthersComeAfter(metrics, sorted, metrics[i], metrics[j]);
      var k :| 1 <= k < |sorted| && sorted[k] == metrics[j];
      assert RateOf(sorted[1]) >= RateOf(sorted[k]) by {
        assert k == 1 || 1 < k;
      }
    }
  }

  lemma TwoPositions<T>(s: seq<T>, i: nat, j: nat)
    requires i < |s| && j < |s| && i != j
    ensures multiset{s[i], s[j]} <= multiset(s)
  {
    var lo, hi := if i < j then i else j, if i < j then j else i;
    assert s == s[..lo] + [s[lo]] + s[lo + 1..hi] + [s[hi]] + s[hi + 1..];
  }

  lemma OthersComeAfter<T>(s: seq<T>, sorted: seq<T>, first: T, other: T)
    requires multiset(s) == multiset(sorted) && sorted != [] && sorted[0] == first
    requires multiset{first, other} <= multiset(s)
    ensures exists k :: 1 <= k < |sorted| && sorted[k] == other
  {
    assert sorted == [first] + sorted[1..];
    assert multiset(sorted) == multiset{first} + multiset(sorted[1..]);
    assert other in multiset(sorted[1..]);
    var k :| 0 <= k < |sorted[1..]| && sorted[1..][k] == other;
    assert sorted[k + 1] == other;
  }

  /** The sorted list begins with the element that ranks above all others, and goes on with the next one. */
  lemma FirstTwo(metrics: seq<VariantMetrics>, i: nat, j: nat)
    requires i < |metrics| && j < |metrics| && i != j
    requires forall k | 0 <= k < |metrics| && k != i :: metrics[k].replyRate < metrics[i].replyRate
    requires forall k | 0 <= k < |metrics| && k != i && k != j :: metrics[k].replyRate < metrics[j].replyRate
    ensures var s := SortDesc(metrics, RateOf); |s| == |metrics| && s[0] == metrics[i] && s[1] == metrics[j]
  {
    var s := SortDesc(metrics, RateOf);
    SortDescSorts(metrics, RateOf);
    assert |s| == |multiset(s)| == |multiset(metrics)| == |metrics|;
    FirstIs(metrics, s, i);
    TwoPositions(metrics, i, j);
    OthersComeAfter(metrics, s, metrics[i], metrics[j]);
    var k :| 1 <= k < |s| && s[k] == metrics[j];
    var l := SecondComesFrom(metrics, s, i);
    assert RateOf(s[1]) >= RateOf(s[k]) by {
      assert k == 1 || 1 < k;
    }
  }

  lemma FirstIs(metrics: seq<VariantMetrics>, s: seq<VariantMetrics>, i: nat)
    requires multiset(s) == multiset(metrics) && Descending(s, RateOf) && i < |metrics| && s != []
    requires forall k | 0 <= k < |metrics| && k != i :: metrics[k].replyRate < metrics[i].replyRate
    ensures s[0] == metrics[i]
  {
    assert metrics[i] in multiset(s) && s[0] in multiset(metrics);
    var a :| 0 <= a < |s| && s[a] == metrics[i];
    var b :| 0 <= b < |metrics| && metrics[b] == s[0];
    assert RateOf(s[0]) >= RateOf(s[a]);
  }

  lemma WithoutOne<T>(s: seq<T>, i: nat) returns (rest: seq<T>)
    requires i < |s|
    ensures rest == s[..i] + s[i + 1..] && multiset(rest) == multiset(s) - multiset{s[i]}
  {
    rest := s[..i] + s[i + 1..];
    assert s == s[..i] + [s[i]] + s[i + 1..];
  }

  lemma SecondComesFrom(metrics: seq<VariantMetrics>, s: seq<VariantMetrics>, i: nat) returns (l: nat)
    requires multiset(s) == multiset(metrics) && |s| >= 2 && i < |metrics| && s[0] == metrics[i]
    ensures l < |metrics| && l != i && metrics[l] == s[1]
  {
    var rest := WithoutOne(metrics, i);
    var others := WithoutOne(s, 0);
    assert others[0] == s[1] && s[1] in multiset(others);
    var r :| 0 <= r < |rest| && rest[r] == s[1];
    l := if r < i then r else r + 1;
  }

  /**
   The best variant wins exactly when its statistic against the runner-up is beyond
   3.84, with confidence 0.99 beyond 6.63 and 0.95 otherwise.
   */
  lemma WinnerCriterion(metrics: seq<VariantMetrics>, i: nat, j: nat)
    requires i < |metrics| && j < |metrics| && i != j
    requires forall k | 0 <= k < |metrics| && k != i :: metrics[k].replyRate < metrics[i].replyRate
    requires forall k | 0 <= k < |metrics| && k != i && k != j :: metrics[k].replyRate < metrics[j].replyRate
    ensures var chi := ChiSquare2x2(metrics[i].totalReplies, metrics[i].totalSent,
                                    metrics[j].totalReplies, metrics[j].totalSent);
            && (CalculateWinner(metrics).variant == Some(metrics[i]) <==> chi > 3.84)
            && (CalculateWinner(metrics) == Winner(Some(metrics[i]), 0.99) <==> chi > 6.63)
            && (CalculateWinner(metrics) == Winner(Some(metrics[i]), 0.95) <==> 3.84 < chi <= 6.63)
            && (CalculateWinner(metrics) == Winner(None, 0.0) <==> chi <= 3.84)
  {
    FirstTwo(metrics, i, j);
  }

  /** Fewer than two variants have no winner. */
  lemma NoContest(metrics: seq<VariantMetrics>)
    ensures |metrics| < 2 ==> CalculateWinner(metrics) == Winner(None, 0.0)
  {
  }

  predicate DistinctRates(metrics: seq<VariantMetrics>) {
    forall m, m' | m in metrics && m' in metrics && m != m' :: m.replyRate != m'.replyRate
  }

  lemma HeadsAgree(s: seq<VariantMetrics>, t: seq<VariantMetrics>)
    requires multiset(s) == multiset(t) && DistinctRates(s) && s != []
    requires Descending(s, RateOf) && Descending(t, RateOf)
    ensures t != [] && s[0] == t[0]
  {
    assert s[0] in multiset(s);
    var i :| 0 <= i < |t| && t[i] == s[0];
    assert t[0] in multiset(t);
    var j :| 0 <= j < |s| && s[j] == t[0];
    assert RateOf(t[0]) >= RateOf(t[i]);
    assert RateOf(s[0]) >= RateOf(s[j]);
  }

  lemma TailOfSorted(s: seq<VariantMetrics>)
    requires s != []
    ensures Descending(s, RateOf) ==> Descending(s[1..], RateOf)
    ensures DistinctRates(s) ==> DistinctRates(s[1..])
    ensures multiset(s[1..]) == multiset(s) - multiset{s[0]}
  {
    assert s == [s[0]] + s[1..];
    assert forall m | m in s[1..] :: m in s;
  }

  lemma {:induction false} SortedIsUnique(s: seq<VariantMetrics>, t: seq<VariantMetrics>)
    requires multiset(s) == multiset(t) && DistinctRates(s)
    requires Descending(s, RateOf) && Descending(t, RateOf)
    ensures s == t
    decreases |s|
  {
    if s == [] {
      assert |multiset(t)| == 0;
    } else {
      HeadsAgree(s, t);
      assert s == [s[0]] + s[1..] && t == [t[0]] + t[1..];
      TailOfSorted(s);
      TailOfSorted(t);
      SortedIsUnique(s[1..], t[1..]);
    }
  }

  lemma PermutationKeepsRates(metrics: seq<VariantMetrics>, s: seq<VariantMetrics>)
    requires multiset(metrics) == multiset(s) && DistinctRates(metrics)
    ensures DistinctRates(s)
  {
    forall m | m in s
      ensures m in metrics
    {
      assert m in multiset(s);
    }
  }

  /** When no two variants share a reply rate, the outcome does not depend on the order they are listed in. */
  lemma WinnerIgnoresOrder(metrics: seq<VariantMetrics>, shuffled: seq<VariantMetrics>)
    requires multiset(metrics) == multiset(shuffled) && DistinctRates(metrics)
    ensures CalculateWinner(metrics) == CalculateWinner(shuffled)
  {
    SortDescSorts(metrics, RateOf);
    SortDescSorts(shuffled, RateOf);
    assert |metrics| == |multiset(metrics)| == |multiset(shuffled)| == |shuffled|;
    var s := SortDesc(metrics, RateOf);
    PermutationKeepsRates(metrics, s);
    SortedIsUnique(s, SortDesc(shuffled, RateOf));
  }
}

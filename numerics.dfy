/**
 * The numerical-library facts the pipeline leans on (numpy's mean, median,
 * percentile, least-squares line, sample standard deviation, vector norm,
 * and round-half-to-even), over exact reals.
 */
module Numerics {
  import opened Sorting

  /** Sum of a sequence, accumulated from the left. */
  function Sum(s: seq<real>): real {
    if s == [] then 0.0 else Sum(s[..|s| - 1]) + s[|s| - 1]
  }

  // ---------------------------------------------------------------------
  // Small facts of real arithmetic, kept apart so each is proved alone

  lemma SquareNonNegative(a: real)
    ensures a * a >= 0.0
  {}

  lemma ProductNonNegative(a: real, b: real)
    requires a >= 0.0 && b >= 0.0
    ensures a * b >= 0.0
  {}

  lemma ProductZero(a: real, b: real)
    requires a * b == 0.0 && b != 0.0
    ensures a == 0.0
  {}

  lemma ScaleLess(a: real, b: real, n: real)
    requires n > 0.0 && a < b
    ensures a * n < b * n
  {}

  lemma QuotientTimes(a: real, b: real)
    requires b != 0.0
    ensures (a / b) * b == a
  {}

  lemma ProductPositive(a: real, b: real, p: real)
    requires p == a * b && a > 0.0 && b > 0.0
    ensures p > 0.0
  {}

  /** A square, given a name of its own, is zero at zero and positive elsewhere. */
  lemma SquareSign(a: real, sq: real)
    requires sq == a * a
    ensures sq >= 0.0
    ensures sq == 0.0 <==> a == 0.0
  {
    if a > 0.0 {
      ProductPositive(a, a, sq);
    } else if a < 0.0 {
      ProductPositive(-a, -a, sq);
    }
  }

  lemma FractionOf(f: real, d: real)
    requires 0.0 <= f < 1.0 && d >= 0.0
    ensures 0.0 <= f * d <= d
  {}

  lemma QuotientBounds(lo: real, s: real, hi: real, n: real)
    requires n > 0.0
    requires n * lo <= s <= n * hi
    ensures lo <= s / n <= hi
  {
    var q := s / n;
    assert q * n == s;
    if q < lo { ScaleLess(q, lo, n); }
    if hi < q { ScaleLess(hi, q, n); }
  }

  lemma SquareBelow(d: real, p: real)
    requires p > 0.0 && d * d <= p * p
    ensures d <= p
  {}

  lemma SquareAbove(d: real, p: real)
    requires p > 0.0 && d * d <= p * p
    ensures -p <= d
  {}

  function Mean(s: seq<real>): real
    requires |s| > 0
  {
    Sum(s) / |s| as real
  }

  function MinOf(s: seq<real>): (m: real)
    requires |s| > 0
    ensures m in s
    ensures forall x :: x in s ==> m <= x
  {
    if |s| == 1 then s[0]
    else
      var m := MinOf(s[1..]);
      assert s == [s[0]] + s[1..];
      if s[0] <= m then s[0] else m
  }

  function MaxOf(s: seq<real>): (m: real)
    requires |s| > 0
    ensures m in s
    ensures forall x :: x in s ==> x <= m
  {
    if |s| == 1 then s[0]
    else
      var m := MaxOf(s[1..]);
      assert s == [s[0]] + s[1..];
      if m <= s[0] then s[0] else m
  }

  /** A sum of terms that all lie in [lo, hi] lies between |s|*lo and |s|*hi. */
  lemma {:induction false} SumBounds(s: seq<real>, lo: real, hi: real)
    requires forall x :: x in s ==> lo <= x <= hi
    ensures |s| as real * lo <= Sum(s) <= |s| as real * hi
  {
    if s != [] {
      var init := s[..|s| - 1];
      assert forall x :: x in init ==> x in s;
      SumBounds(init, lo, hi);
      assert s[|s| - 1] in s;
      assert |s| as real * lo == |init| as real * lo + lo;
      assert |s| as real * hi == |init| as real * hi + hi;
    }
  }

  /** A mean of terms that all lie in [lo, hi] lies in [lo, hi]. */
  lemma MeanBetween(s: seq<real>, lo: real, hi: real)
    requires |s| > 0
    requires forall x :: x in s ==> lo <= x <= hi
    ensures lo <= Mean(s) <= hi
  {
    SumBounds(s, lo, hi);
    QuotientBounds(lo, Sum(s), hi, |s| as real);
  }

  /** The mean lies between the minimum and the maximum. */
  lemma MeanBounds(s: seq<real>)
    requires |s| > 0
    ensures MinOf(s) <= Mean(s) <= MaxOf(s)
  {
    MeanBetween(s, MinOf(s), MaxOf(s));
  }

  /** A constant sequence sums to its length times the constant. */
  lemma {:induction false} SumConstant(s: seq<real>, c: real)
    requires forall i :: 0 <= i < |s| ==> s[i] == c
    ensures Sum(s) == |s| as real * c
  {
    if s != [] {
      SumConstant(s[..|s| - 1], c);
    }
  }

  /** The mean of a constant sequence is that constant. */
  lemma MeanConstant(s: seq<real>, c: real)
    requires |s| > 0
    requires forall i :: 0 <= i < |s| ==> s[i] == c
    ensures Mean(s) == c
  {
    SumConstant(s, c);
  }

  /** Percent change from `base` to `x`. */
  function PctChange(base: real, x: real): real
    requires base != 0.0
  {
    (x - base) / base * 100.0
  }

  lemma QuotientSignPositive(a: real, b: real)
    requires b > 0.0
    ensures a / b >= 0.0 <==> a >= 0.0
  {}

  lemma QuotientSignNegative(a: real, b: real)
    requires b < 0.0
    ensures a / b >= 0.0 <==> a <= 0.0
  {}

  lemma QuotientZero(a: real, b: real)
    requires b != 0.0
    ensures a / b == 0.0 <==> a == 0.0
  {}

  /** The sign of a percent change: against a positive base it is non-negative exactly when x >= base. */
  lemma PctChangeSign(base: real, x: real)
    requires base != 0.0
    ensures base > 0.0 ==> (PctChange(base, x) >= 0.0 <==> x >= base)
    ensures base < 0.0 ==> (PctChange(base, x) >= 0.0 <==> x <= base)
    ensures PctChange(base, x) == 0.0 <==> x == base
  {
    QuotientZero(x - base, base);
    if base > 0.0 { QuotientSignPositive(x - base, base); }
    if base < 0.0 { QuotientSignNegative(x - base, base); }
  }

  // ---------------------------------------------------------------------
  // Percentiles (numpy's default 'linear' method)

  function Id(x: real): real { x }

  lemma VirtualIndexInRange(last: nat, pct: nat)
    requires pct <= 100
    ensures last * pct <= last * 100
    ensures 0 <= (last * pct) / 100 <= last
  {
    assert last * pct <= last * 100 by {
      assert last * (100 - pct) >= 0;
    }
  }

  /** The point a fraction f of the way from a to b. */
  function Lerp(a: real, b: real, f: real): (r: real)
    requires a <= b && 0.0 <= f < 1.0
    ensures a <= r <= b
  {
    var d := b - a;
    FractionOf(f, d);
    var w := f * d;
    a + w
  }

  /**
   * The pct-th percentile of an ascending sequence: the value at the virtual
   * index (n - 1) * pct / 100, interpolated linearly between its neighbours.
   */
  function PercentileOfSorted(v: seq<real>, pct: nat): (q: real)
    requires |v| > 0 && pct <= 100
    requires SortedBy(v, Id)
    ensures v[0] <= q <= v[|v| - 1]
  {
    var h := (|v| - 1) * pct;
    var k := h / 100;
    VirtualIndexInRange(|v| - 1, pct);
    var frac := (h % 100) as real / 100.0;
    if k + 1 < |v| then
      assert Id(v[0]) <= Id(v[k]) <= Id(v[k + 1]);
      assert Id(v[k + 1]) <= Id(v[|v| - 1]) || k + 1 == |v| - 1;
      Lerp(v[k], v[k + 1], frac)
    else
      assert Id(v[0]) <= Id(v[k]) || k == 0;
      v[k]
  }

  /** `np.percentile(xs, pct)`: sort, then interpolate. */
  function Percentile(xs: seq<real>, pct: nat): (q: real)
    requires |xs| > 0 && pct <= 100
    ensures MinOf(xs) <= q <= MaxOf(xs)
  {
    var v := SortBy(xs, Id);
    assert v[0] in multiset(v) && v[|v| - 1] in multiset(v);
    assert v[0] in xs && v[|v| - 1] in xs;
    PercentileOfSorted(v, pct)
  }

  /** `np.median`: the 50th percentile (the mean of the middle two for an even count). */
  function Median(xs: seq<real>): (q: real)
    requires |xs| > 0
    ensures MinOf(xs) <= q <= MaxOf(xs)
  {
    Percentile(xs, 50)
  }

  /** Every percentile of a constant sequence is that constant. */
  lemma PercentileConstant(xs: seq<real>, pct: nat, c: real)
    requires |xs| > 0 && pct <= 100
    requires forall i :: 0 <= i < |xs| ==> xs[i] == c
    ensures Percentile(xs, pct) == c
  {
    assert MinOf(xs) == c && MaxOf(xs) == c;
  }

  // ---------------------------------------------------------------------
  // Least-squares line through (0, ys[0]), (1, ys[1]), ... (np.polyfit, degree 1)

  /** The mean of the abscissae 0 .. n-1. */
  function IndexMean(n: nat): real
    requires n > 0
  {
    (n - 1) as real / 2.0
  }

  /**
   * The product a * b as a single term: the recursive sums below add
   * Mul(..) rather than a bare product, which keeps the solver's
   * non-linear reasoning out of their inductive proofs.
   */
  function Mul(a: real, b: real): real {
    a * b
  }

  /** Sum over i < n of (i - m). */
  function Dev(n: nat, m: real): real {
    if n == 0 then 0.0 else Dev(n - 1, m) + ((n - 1) as real - m)
  }

  /** Sum over i < n of (i - m)^2. */
  function SqDev(n: nat, m: real): real {
    if n == 0 then 0.0 else SqDev(n - 1, m) + Mul((n - 1) as real - m, (n - 1) as real - m)
  }

  /** Sum over i < |ys| of (i - m) * ys[i]. */
  function CrossDev(ys: seq<real>, m: real): real {
    if ys == [] then 0.0
    else CrossDev(ys[..|ys| - 1], m) + Mul((|ys| - 1) as real - m, ys[|ys| - 1])
  }

  lemma {:induction false} SqDevAtLeastFirst(n: nat, m: real)
    requires n >= 1
    ensures SqDev(n, m) >= m * m
  {
    if n > 1 {
      SqDevAtLeastFirst(n - 1, m);
      SquareNonNegative((n - 1) as real - m);
    }
  }

  /** Least-squares slope of ys against 0 .. |ys|-1. */
  function LeastSquaresSlope(ys: seq<real>): real
    requires |ys| >= 2
  {
    SqDevPositive(|ys|);
    CrossDev(ys, IndexMean(|ys|)) / SqDev(|ys|, IndexMean(|ys|))
  }

  /** Two or more abscissae do not all sit at their mean. */
  lemma SqDevPositive(n: nat)
    requires n >= 2
    ensures SqDev(n, IndexMean(n)) > 0.0
  {
    var m := IndexMean(n);
    SqDevAtLeastFirst(n, m);
    assert m * m > 0.0;
  }

  /** Least-squares intercept: the fitted line passes through the centroid. */
  function LeastSquaresIntercept(ys: seq<real>): real
    requires |ys| >= 2
  {
    Mean(ys) - LeastSquaresSlope(ys) * IndexMean(|ys|)
  }

  /** Points that lie on a line: ys[i] == a + b * i. */
  predicate OnLine(ys: seq<real>, a: real, b: real) {
    forall i :: 0 <= i < |ys| ==> ys[i] == a + b * i as real
  }

  lemma {:induction false} DevClosedForm(n: nat, m: real)
    ensures Dev(n, m) == (n as real) * ((n as real) - 1.0) / 2.0 - (n as real) * m
  {
    if n > 0 {
      DevClosedForm(n - 1, m);
      var k := (n - 1) as real;
      assert Dev(n, m) == k * (k - 1.0) / 2.0 - k * m + (k - m);
      assert k * (k - 1.0) / 2.0 + k == (k + 1.0) * k / 2.0;
    }
  }

  lemma {:induction false} CrossDevOnLine(ys: seq<real>, m: real, a: real, b: real)
    requires OnLine(ys, a, b)
    ensures CrossDev(ys, m) == LineCross(a, b, m, Dev(|ys|, m), SqDev(|ys|, m))
  {
    if ys == [] {
      CrossStep(0.0, 0.0, 0.0, CrossDev(ys, m), Dev(|ys|, m), SqDev(|ys|, m), m, a + b * m, m, a, b);
    } else {
      CrossDevOnLine(ys[..|ys| - 1], m, a, b);
      CrossStep(CrossDev(ys[..|ys| - 1], m), Dev(|ys| - 1, m), SqDev(|ys| - 1, m),
                CrossDev(ys, m), Dev(|ys|, m), SqDev(|ys|, m), (|ys| - 1) as real, ys[|ys| - 1], m, a, b);
    }
  }

  /** The cross deviation of points on the line a + b i, given their Dev d and SqDev sq. */
  function LineCross(a: real, b: real, m: real, d: real, sq: real): real {
    a * d + b * (sq + m * d)
  }

  /** One step of CrossDevOnLine, stated over plain reals. */
  lemma CrossStep(c: real, d: real, sq: real, c': real, d': real, sq': real, k: real, y: real, m: real, a: real, b: real)
    requires c == LineCross(a, b, m, d, sq)
    requires y == a + b * k && c' == c + Mul(k - m, y)
    requires d' == d + (k - m) && sq' == sq + Mul(k - m, k - m)
    ensures c' == LineCross(a, b, m, d', sq')
  {
    assert (k - m) * (a + b * k) == a * (k - m) + b * ((k - m) * (k - m) + m * (k - m));
  }

  lemma {:induction false} SumOnLine(ys: seq<real>, a: real, b: real)
    requires OnLine(ys, a, b)
    ensures Sum(ys) == (|ys| as real) * a + b * ((|ys| as real) * ((|ys| as real) - 1.0) / 2.0)
  {
    if ys != [] {
      var init := ys[..|ys| - 1];
      SumOnLine(init, a, b);
      var k := (|ys| - 1) as real;
      assert ys[|ys| - 1] == a + b * k;
      assert b * (k * (k - 1.0) / 2.0) + b * k == b * ((k + 1.0) * k / 2.0);
    }
  }

  /** A least-squares fit of points that lie on a line recovers that line. */
  lemma FitRecoversLine(ys: seq<real>, a: real, b: real)
    requires |ys| >= 2
    requires OnLine(ys, a, b)
    ensures LeastSquaresSlope(ys) == b
    ensures LeastSquaresIntercept(ys) == a
  {
    var m := IndexMean(|ys|);
    DevClosedForm(|ys|, m);
    DevAtMean(|ys| as real, Dev(|ys|, m), m);
    CrossDevOnLine(ys, m, a, b);
    SqDevPositive(|ys|);
    SlopeOfLine(CrossDev(ys, m), Dev(|ys|, m), SqDev(|ys|, m), a, b, m);
    SumOnLine(ys, a, b);
    InterceptOfLine(Sum(ys), |ys| as real, a, b, LeastSquaresSlope(ys), m);
  }

  /** The deviations of 0 .. n-1 from their own mean sum to zero. */
  lemma DevAtMean(n: real, d: real, m: real)
    requires m == (n - 1.0) / 2.0
    requires d == n * (n - 1.0) / 2.0 - n * m
    ensures d == 0.0
  {}

  /** With no net deviation, the cross deviation of a line is its slope times SqDev. */
  lemma SlopeOfLine(c: real, d: real, sq: real, a: real, b: real, m: real)
    requires d == 0.0 && sq > 0.0
    requires c == LineCross(a, b, m, d, sq)
    ensures c / sq == b
  {
    assert c == b * sq;
  }

  /** The centroid of a line's points lies on it, so the intercept comes back. */
  lemma InterceptOfLine(sum: real, n: real, a: real, b: real, slope: real, m: real)
    requires n > 0.0 && m == (n - 1.0) / 2.0 && slope == b
    requires sum == n * a + b * (n * (n - 1.0) / 2.0)
    ensures sum / n - slope * m == a
  {
    assert sum == n * (a + b * m);
  }

  /** One more step along a line adds its slope. */
  lemma StepOf(b: real, k: nat)
    ensures b * (k + 1) as real == b * k as real + b
  {}

  /** Walking j steps on from point k of a line reaches point k + j. */
  lemma LineContinues(a: real, b: real, k: nat, j: nat)
    ensures a + b * k as real + b * j as real == a + b * (k + j) as real
  {}

  // ---------------------------------------------------------------------
  // Spread and norms, whose square roots the numerical library computes

  /** Sum of squared deviations of xs from c. */
  function SqDevFrom(xs: seq<real>, c: real): real {
    if xs == [] then 0.0
    else SqDevFrom(xs[..|xs| - 1], c) + Mul(xs[|xs| - 1] - c, xs[|xs| - 1] - c)
  }

  /** `s` is the sample standard deviation (ddof = 1) of xs. */
  predicate IsSampleStd(xs: seq<real>, s: real) {
    |xs| > 1 && s >= 0.0 && Mul(Mul(s, s), (|xs| - 1) as real) == SqDevFrom(xs, Mean(xs))
  }

  lemma {:induction false} SqDevFromConstant(xs: seq<real>, c: real)
    requires forall i :: 0 <= i < |xs| ==> xs[i] == c
    ensures SqDevFrom(xs, c) == 0.0
  {
    if xs != [] { SqDevFromConstant(xs[..|xs| - 1], c); }
  }

  /** A constant sequence has sample standard deviation 0. */
  lemma SampleStdOfConstant(xs: seq<real>, c: real, s: real)
    requires IsSampleStd(xs, s)
    requires forall i :: 0 <= i < |xs| ==> xs[i] == c
    ensures s == 0.0
  {
    MeanConstant(xs, c);
    SqDevFromConstant(xs, c);
    assert Mul(s, s) * (|xs| - 1) as real == 0.0;
    ProductZero(Mul(s, s), (|xs| - 1) as real);
    if s != 0.0 { ProductZero(s, s); }
  }

  /** Inner product of two equally long vectors. */
  function Dot(x: seq<real>, y: seq<real>): real
    requires |x| == |y|
  {
    if x == [] then 0.0
    else Dot(x[..|x| - 1], y[..|y| - 1]) + Mul(x[|x| - 1], y[|y| - 1])
  }

  /** `nrm` is the Euclidean norm of xs (np.linalg.norm). */
  predicate IsNorm(xs: seq<real>, nrm: real) {
    nrm >= 0.0 && nrm * nrm == Dot(xs, xs)
  }

  /** Each element minus the mean (`y - y.mean()`). */
  function Centered(xs: seq<real>): (r: seq<real>)
    requires |xs| > 0
    ensures |r| == |xs|
    ensures forall i :: 0 <= i < |xs| ==> r[i] + Mean(xs) == xs[i]
  {
    seq(|xs|, i requires 0 <= i < |xs| => xs[i] - Mean(xs))
  }

  /** Sum over i of (x[i] - t * y[i])^2. */
  function Residue(x: seq<real>, y: seq<real>, t: real): real
    requires |x| == |y|
  {
    if x == [] then 0.0
    else
      var d := x[|x| - 1] - t * y[|y| - 1];
      Residue(x[..|x| - 1], y[..|y| - 1], t) + Mul(d, d)
  }

  /** The quadratic xx - 2 t xy + t^2 yy in t. */
  function Quad(xx: real, xy: real, yy: real, t: real): real {
    xx - 2.0 * t * xy + t * t * yy
  }

  lemma {:induction false} ResidueNonNegative(x: seq<real>, y: seq<real>, t: real)
    requires |x| == |y|
    ensures Residue(x, y, t) >= 0.0
  {
    if x != [] {
      var n := |x| - 1;
      ResidueNonNegative(x[..n], y[..n], t);
      SquareNonNegative(x[n] - t * y[n]);
    }
  }

  /** The residue of x against t·y expands into inner products. */
  lemma {:induction false} ResidueExpansion(x: seq<real>, y: seq<real>, t: real)
    requires |x| == |y|
    ensures Residue(x, y, t) == Quad(Dot(x, x), Dot(x, y), Dot(y, y), t)
  {
    if x == [] {
      ResidueStep(0.0, 0.0, 0.0, 0.0, Residue(x, y, t), Dot(x, x), Dot(x, y), Dot(y, y), 0.0, 0.0, t);
    } else {
      var x', y' := x[..|x| - 1], y[..|y| - 1];
      ResidueExpansion(x', y', t);
      ResidueStep(Residue(x', y', t), Dot(x', x'), Dot(x', y'), Dot(y', y'),
                  Residue(x, y, t), Dot(x, x), Dot(x, y), Dot(y, y), x[|x| - 1], y[|y| - 1], t);
    }
  }

  /** One step of ResidueExpansion, stated over plain reals. */
  lemma ResidueStep(r: real, xx: real, xy: real, yy: real, r': real, xx': real, xy': real, yy': real,
                    a: real, b: real, t: real)
    requires r == Quad(xx, xy, yy, t)
    requires r' == r + Mul(a - t * b, a - t * b)
    requires xx' == xx + Mul(a, a) && xy' == xy + Mul(a, b) && yy' == yy + Mul(b, b)
    ensures r' == Quad(xx', xy', yy', t)
  {
    assert (a - t * b) * (a - t * b) == a * a - 2.0 * t * (a * b) + t * t * (b * b);
    assert 2.0 * t * (xy + a * b) == 2.0 * t * xy + 2.0 * t * (a * b);
    assert t * t * (yy + b * b) == t * t * yy + t * t * (b * b);
  }

  lemma {:induction false} DotSelfNonNegative(x: seq<real>)
    ensures Dot(x, x) >= 0.0
  {
    if x != [] {
      DotSelfNonNegative(x[..|x| - 1]);
      SquareNonNegative(x[|x| - 1]);
    }
  }

  lemma {:induction false} DotSelfZero(x: seq<real>, y: seq<real>)
    requires |x| == |y|
    requires Dot(y, y) == 0.0
    ensures Dot(x, y) == 0.0
  {
    if x != [] {
      var n := |x| - 1;
      DotSelfNonNegative(y[..n]);
      SquareNonNegative(y[n]);
      assert y[n] * y[n] == 0.0;
      if y[n] != 0.0 { ProductZero(y[n], y[n]); }
      DotSelfZero(x[..n], y[..n]);
    }
  }

  /** Cauchy-Schwarz: <x, y>^2 <= <x, x> <y, y>. */
  lemma CauchySchwarz(x: seq<real>, y: seq<real>)
    requires |x| == |y|
    ensures Dot(x, y) * Dot(x, y) <= Dot(x, x) * Dot(y, y)
  {
    DotSelfNonNegative(x);
    DotSelfNonNegative(y);
    if Dot(y, y) == 0.0 {
      DotSelfZero(x, y);
      CauchyFromQuad(Dot(x, x), Dot(x, y), Dot(y, y));
    } else {
      var t := Dot(x, y) / Dot(y, y);
      ResidueNonNegative(x, y, t);
      ResidueExpansion(x, y, t);
      CauchyFromQuad(Dot(x, x), Dot(x, y), Dot(y, y));
    }
  }

  /** The quadratic Quad(xx, xy, yy, .) is non-negative at its minimum only if xy^2 <= xx yy. */
  lemma CauchyFromQuad(xx: real, xy: real, yy: real)
    requires xx >= 0.0 && yy >= 0.0
    requires yy == 0.0 ==> xy == 0.0
    requires yy != 0.0 ==> Quad(xx, xy, yy, xy / yy) >= 0.0
    ensures xy * xy <= xx * yy
  {
    if yy == 0.0 {
      ProductNonNegative(xx, yy);
    } else {
      var t := xy / yy;
      assert xx - 2.0 * t * xy + t * t * yy >= 0.0;
      assert t * yy == xy;
      assert t * t * yy == t * xy;
      assert xx - t * xy >= 0.0;
      ProductNonNegative(xx - t * xy, yy);
      assert (xx - t * xy) * yy == xx * yy - t * yy * xy;
    }
  }

  /** A correlation built from two norms lies in [-1, 1]. */
  lemma CorrelationBounded(x: seq<real>, y: seq<real>, nx: real, ny: real)
    requires |x| == |y|
    requires IsNorm(x, nx) && IsNorm(y, ny)
    requires nx * ny != 0.0
    ensures -1.0 <= Dot(x, y) / (nx * ny) <= 1.0
  {
    CauchySchwarz(x, y);
    QuotientOfNorms(Dot(x, y), Dot(x, x), Dot(y, y), nx, ny);
  }

  /** If d^2 <= xx yy for the squares xx, yy of nx, ny, then d / (nx ny) lies in [-1, 1]. */
  lemma QuotientOfNorms(d: real, xx: real, yy: real, nx: real, ny: real)
    requires nx >= 0.0 && ny >= 0.0 && nx * nx == xx && ny * ny == yy
    requires nx * ny != 0.0
    requires d * d <= xx * yy
    ensures -1.0 <= d / (nx * ny) <= 1.0
  {
    var p := nx * ny;
    ProductNonNegative(nx, ny);
    assert p * p == (nx * nx) * (ny * ny);
    SquareBelow(d, p);
    SquareAbove(d, p);
    QuotientBounds(-1.0, d, 1.0, p);
  }

  // ---------------------------------------------------------------------
  // Rounding (Python's round / np.round: to the nearest multiple of
  // 1/scale, ties to the even neighbour)

  /** The nearest integer to t, ties to the even one. */
  function RoundToInt(t: real): (n: int)
    ensures t - 0.5 <= n as real <= t + 0.5
  {
    var f := t.Floor;
    var frac := t - f as real;
    if frac < 0.5 then f else if frac > 0.5 then f + 1 else if f % 2 == 0 then f else f + 1
  }

  /** Rounding to an integer never reverses the order of two numbers. */
  lemma RoundToIntMonotone(t: real, u: real)
    requires t <= u
    ensures RoundToInt(t) <= RoundToInt(u)
  {
    var f, g := t.Floor, u.Floor;
    assert f <= g;
    if f == g {
      assert t - f as real <= u - g as real;
    } else {
      assert RoundToInt(t) <= f + 1 <= g <= RoundToInt(u);
    }
  }

  /** The rounded integer is non-negative exactly when t is at least -1/2. */
  lemma RoundToIntNonNegative(t: real)
    ensures RoundToInt(t) >= 0 <==> t >= -0.5
  {
    var f := t.Floor;
    if f == -1 {
      assert f % 2 == 1;
    }
  }

  /** Python's `round(x, 1)`: to the nearest tenth, ties to the even tenth. */
  function RoundOneDecimal(x: real): real {
    RoundToInt(x * 10.0) as real / 10.0
  }

  /** numpy's `np.round(x, 2)`: to the nearest hundredth, ties to the even hundredth. */
  function RoundTwoDecimals(x: real): real {
    RoundToInt(x * 100.0) as real / 100.0
  }

  /** Rounding to one decimal is off by at most half a tenth. */
  lemma RoundOneDecimalError(x: real)
    ensures x - 0.05 <= RoundOneDecimal(x) <= x + 0.05
  {
    var n := RoundToInt(x * 10.0);
    assert x * 10.0 - 0.5 <= n as real <= x * 10.0 + 0.5;
  }

  /** Rounding to cents is off by at most half a cent. */
  lemma RoundTwoDecimalsError(x: real)
    ensures x - 0.005 <= RoundTwoDecimals(x) <= x + 0.005
  {
    var n := RoundToInt(x * 100.0);
    assert x * 100.0 - 0.5 <= n as real <= x * 100.0 + 0.5;
  }

  /** Rounding to one decimal gives a non-negative number exactly when x >= -0.05. */
  lemma RoundOneDecimalSign(x: real)
    ensures RoundOneDecimal(x) >= 0.0 <==> x >= -0.05
  {
    RoundToIntNonNegative(x * 10.0);
  }

  /** Rounding to two decimals never reverses the order of two prices. */
  lemma RoundTwoDecimalsMonotone(x: real, y: real)
    requires x <= y
    ensures RoundTwoDecimals(x) <= RoundTwoDecimals(y)
  {
    RoundToIntMonotone(x * 100.0, y * 100.0);
  }
}

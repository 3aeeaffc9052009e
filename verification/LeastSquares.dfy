/** The slope estimator and the memory derivation that uses it (scripts/ppr00_resource_profile.py:240-283), over exact
    reals; the code rounds every result to six decimals. The sums are scalar products of the centred coordinates. */
module LeastSquares {
  import opened Prelude

  datatype Point = Point(x: real, y: real)
  type Vector = seq<real>

  // ---- Vectors ----------------------------------------------------------------------------------

  function Product(a: real, b: real): real { a * b }

  function SumTo(v: Vector, n: nat): real
    requires n <= |v|
  {
    if n == 0 then 0.0 else SumTo(v, n - 1) + v[n - 1]
  }

  function DotTo(v: Vector, w: Vector, n: nat): real
    requires n <= |v| && n <= |w|
  {
    if n == 0 then 0.0 else DotTo(v, w, n - 1) + Product(v[n - 1], w[n - 1])
  }

  function Sum(v: Vector): real { SumTo(v, |v|) }

  function Dot(v: Vector, w: Vector): real
    requires |v| == |w|
  {
    DotTo(v, w, |v|)
  }

  /** v + t w. */
  function Combine(v: Vector, t: real, w: Vector): (r: Vector)
    requires |v| == |w|
    ensures |r| == |v| && forall i :: 0 <= i < |r| ==> r[i] == v[i] + t * w[i]
  {
    seq(|v|, i requires 0 <= i < |v| => v[i] + t * w[i])
  }

  function Constant(n: nat, c: real): (r: Vector)
    ensures |r| == n && forall i :: 0 <= i < n ==> r[i] == c
  {
    seq(n, i => c)
  }

  lemma ProductLinear(a: real, b: real, t: real, c: real)
    ensures Product(a, b + t * c) == Product(a, b) + t * Product(a, c)
  {
    assert a * (t * c) == t * (a * c);
  }

  lemma Distribute(t: real, a: real, b: real)
    ensures t * (a + b) == t * a + t * b
  {
  }

  lemma LinearStep(a: real, b: real, t: real, c: real, m: real, dotB: real, dotC: real, dotM: real)
    requires m == b + t * c && dotM == dotB + t * dotC
    ensures dotM + Product(a, m) == (dotB + Product(a, b)) + t * (dotC + Product(a, c))
  {
    ProductLinear(a, b, t, c);
    Distribute(t, dotC, Product(a, c));
  }

  lemma {:induction false} DotLinearTo(v: Vector, w: Vector, t: real, u: Vector, m: Vector, n: nat)
    requires n <= |v| == |w| == |u| == |m| && forall i :: 0 <= i < |v| ==> m[i] == w[i] + t * u[i]
    ensures DotTo(v, m, n) == DotTo(v, w, n) + t * DotTo(v, u, n)
  {
    if n == 0 {
      ZeroProduct(t, 0.0);
    } else {
      DotLinearTo(v, w, t, u, m, n - 1);
      LinearStep(v[n - 1], w[n - 1], t, u[n - 1], m[n - 1], DotTo(v, w, n - 1), DotTo(v, u, n - 1), DotTo(v, m, n - 1));
    }
  }

  /** The scalar product is linear on the right. */
  lemma DotLinear(v: Vector, w: Vector, t: real, u: Vector)
    requires |v| == |w| == |u|
    ensures Dot(v, Combine(w, t, u)) == Dot(v, w) + t * Dot(v, u)
  {
    DotLinearTo(v, w, t, u, Combine(w, t, u), |v|);
  }

  lemma {:induction false} DotSymmetricTo(v: Vector, w: Vector, n: nat)
    requires n <= |v| && n <= |w|
    ensures DotTo(v, w, n) == DotTo(w, v, n)
  {
    if n != 0 { DotSymmetricTo(v, w, n - 1); }
  }

  lemma DotSymmetric(v: Vector, w: Vector)
    requires |v| == |w|
    ensures Dot(v, w) == Dot(w, v)
  {
    DotSymmetricTo(v, w, |v|);
  }

  lemma {:induction false} DotConstantTo(v: Vector, ones: Vector, c: real, n: nat)
    requires n <= |v| == |ones| && forall i :: 0 <= i < |v| ==> ones[i] == c
    ensures DotTo(v, ones, n) == c * SumTo(v, n)
  {
    if n == 0 {
      ZeroProduct(c, 0.0);
    } else {
      DotConstantTo(v, ones, c, n - 1);
      Distribute(c, SumTo(v, n - 1), v[n - 1]);
    }
  }

  lemma DotConstant(v: Vector, c: real)
    ensures Dot(v, Constant(|v|, c)) == c * Sum(v)
  {
    DotConstantTo(v, Constant(|v|, c), c, |v|);
  }

  lemma SameSign(a: real, b: real)
    requires (a > 0.0 && b > 0.0) || (a < 0.0 && b < 0.0)
    ensures Product(a, b) > 0.0
  {
    if a < 0.0 { assert Product(a, b) == Product(-a, -b); }
  }

  lemma ZeroProduct(a: real, b: real)
    requires a == 0.0 || b == 0.0
    ensures Product(a, b) == 0.0
  {
  }

  lemma {:induction false} DotSelfTo(v: Vector, n: nat)
    requires n <= |v|
    ensures DotTo(v, v, n) >= 0.0
    ensures DotTo(v, v, n) == 0.0 <==> forall i :: 0 <= i < n ==> v[i] == 0.0
  {
    if n != 0 {
      var last := v[n - 1];
      DotSelfTo(v, n - 1);
      if last == 0.0 { ZeroProduct(last, last); } else { SameSign(last, last); }
    }
  }

  /** A vector's product with itself is zero for the zero vector and positive for every other. */
  lemma DotSelf(v: Vector)
    ensures Dot(v, v) >= 0.0
    ensures Dot(v, v) == 0.0 <==> forall i :: 0 <= i < |v| ==> v[i] == 0.0
  {
    DotSelfTo(v, |v|);
  }

  /** Pythagoras: taking away a vector orthogonal to v adds its square. */
  lemma Pythagoras(v: Vector, g: Vector)
    requires |v| == |g| && Dot(v, g) == 0.0
    ensures var r := Combine(v, -1.0, g); Dot(r, r) == Dot(v, v) + Dot(g, g)
  {
    var r := Combine(v, -1.0, g);
    DotLinear(r, v, -1.0, g);
    DotSymmetric(r, v);
    DotSymmetric(r, g);
    DotLinear(v, v, -1.0, g);
    DotLinear(g, v, -1.0, g);
    DotSymmetric(g, v);
  }

  // ---- The estimator ----------------------------------------------------------------------------

  function Xs(p: seq<Point>): (r: Vector)
    ensures |r| == |p| && forall i :: 0 <= i < |p| ==> r[i] == p[i].x
  {
    seq(|p|, i requires 0 <= i < |p| => p[i].x)
  }

  function Ys(p: seq<Point>): (r: Vector)
    ensures |r| == |p| && forall i :: 0 <= i < |p| ==> r[i] == p[i].y
  {
    seq(|p|, i requires 0 <= i < |p| => p[i].y)
  }

  function Mean(v: Vector): real
    requires v != []
  {
    Sum(v) / |v| as real
  }

  /** Deviations from the mean. */
  function Centred(v: Vector): (r: Vector)
    requires v != []
    ensures |r| == |v| && forall i :: 0 <= i < |v| ==> r[i] == v[i] - Mean(v)
  {
    seq(|v|, i requires 0 <= i < |v| => v[i] - Mean(v))
  }

  /** `_least_squares_slope` before rounding. */
  function Slope(p: seq<Point>): Option<real> {
    if |p| < 2 then None
    else
      var denominator := Dot(Centred(Xs(p)), Centred(Xs(p)));
      if denominator == 0.0 then None else Some(Dot(Centred(Xs(p)), Centred(Ys(p))) / denominator)
  }

  /** The vertical distances of the points from a line. */
  function Residuals(p: seq<Point>, slope: real, intercept: real): (r: Vector)
    ensures |r| == |p| && forall i :: 0 <= i < |p| ==> r[i] == p[i].y - (slope * p[i].x + intercept)
  {
    seq(|p|, i requires 0 <= i < |p| => p[i].y - (slope * p[i].x + intercept))
  }

  function SquaredError(p: seq<Point>, slope: real, intercept: real): real {
    Dot(Residuals(p, slope, intercept), Residuals(p, slope, intercept))
  }

  lemma {:induction false} SumShifted(v: Vector, w: Vector, c: real, k: nat, n: real)
    requires k <= |v| == |w| && n == k as real && forall i :: 0 <= i < |v| ==> w[i] == v[i] - c
    ensures SumTo(w, k) == SumTo(v, k) - n * c
  {
    if k == 0 {
      ZeroProduct(n, c);
    } else {
      SumShifted(v, w, c, k - 1, n - 1.0);
      Distribute(c, n - 1.0, 1.0);
    }
  }

  lemma MeanTimes(total: real, n: real)
    requires n != 0.0
    ensures n * (total / n) == total
  {
  }

  /** Deviations from the mean add up to nothing. */
  lemma CentredSum(v: Vector)
    requires v != []
    ensures Sum(Centred(v)) == 0.0
  {
    SumShifted(v, Centred(v), Mean(v), |v|, |v| as real);
    MeanTimes(Sum(v), |v| as real);
  }

  // ---- When there is no slope -------------------------------------------------------------------

  ghost predicate AllEqualX(p: seq<Point>) {
    forall i, j :: 0 <= i < |p| && 0 <= j < |p| ==> p[i].x == p[j].x
  }

  lemma {:induction false} SumOfEqual(v: Vector, c: real, k: nat, n: real)
    requires k <= |v| && n == k as real && forall i :: 0 <= i < |v| ==> v[i] == c
    ensures SumTo(v, k) == n * c
  {
    if k == 0 {
      ZeroProduct(n, c);
    } else {
      SumOfEqual(v, c, k - 1, n - 1.0);
      Distribute(c, n - 1.0, 1.0);
    }
  }

  lemma Quotient(a: real, n: real, q: real)
    requires n != 0.0 && a == n * q
    ensures a / n == q
  {
  }

  /** There is a slope exactly when two points differ in x. */
  lemma NoSlopeExactly(p: seq<Point>)
    ensures Slope(p).None? <==> AllEqualX(p)
  {
    if |p| >= 2 {
      var x := Xs(p);
      DotSelf(Centred(x));
      if AllEqualX(p) {
        SumOfEqual(x, x[0], |p|, |p| as real);
        Quotient(Sum(x), |p| as real, x[0]);
      }
      if Slope(p).None? {
        assert forall i :: 0 <= i < |p| ==> Centred(x)[i] == 0.0;
      }
    }
  }

  // ---- The best line ----------------------------------------------------------------------------

  /** Around the means, the residuals of the estimate are the centred y less slope times the centred x. */
  lemma CentredResiduals(p: seq<Point>, m: real, c: real)
    requires p != [] && c == Mean(Ys(p)) - m * Mean(Xs(p))
    ensures Residuals(p, m, c) == Combine(Centred(Ys(p)), -m, Centred(Xs(p)))
  {
    var mx := Mean(Xs(p));
    forall i | 0 <= i < |p| ensures Residuals(p, m, c)[i] == Combine(Centred(Ys(p)), -m, Centred(Xs(p)))[i] {
      Distribute(m, p[i].x, -mx);
      assert m * (p[i].x - mx) == m * p[i].x - m * mx;
    }
  }

  lemma QuotientTimes(a: real, n: real, q: real)
    requires n != 0.0 && q == a / n
    ensures a + (-q) * n == 0.0
  {
  }

  /** The normal equations: the residuals are orthogonal to the centred x and to the constants. */
  lemma NormalEquations(p: seq<Point>, m: real, c: real)
    requires Slope(p) == Some(m) && c == Mean(Ys(p)) - m * Mean(Xs(p))
    ensures Dot(Residuals(p, m, c), Centred(Xs(p))) == 0.0
    ensures Sum(Residuals(p, m, c)) == 0.0
  {
    CentredResiduals(p, m, c);
    OrthogonalToX(Centred(Xs(p)), Centred(Ys(p)), m);
    CentredSum(Xs(p));
    CentredSum(Ys(p));
    OrthogonalToOnes(Centred(Xs(p)), Centred(Ys(p)), m);
  }

  lemma OrthogonalToX(x: Vector, y: Vector, m: real)
    requires |x| == |y| && Dot(x, x) != 0.0 && m == Dot(x, y) / Dot(x, x)
    ensures Dot(Combine(y, -m, x), x) == 0.0
  {
    DotSymmetric(Combine(y, -m, x), x);
    DotLinear(x, y, -m, x);
    QuotientTimes(Dot(x, y), Dot(x, x), m);
  }

  lemma OrthogonalToOnes(x: Vector, y: Vector, m: real)
    requires |x| == |y| && Sum(x) == 0.0 && Sum(y) == 0.0
    ensures Sum(Combine(y, -m, x)) == 0.0
  {
    var ones, e := Constant(|x|, 1.0), Combine(y, -m, x);
    DotConstant(e, 1.0);
    DotConstant(y, 1.0);
    DotConstant(x, 1.0);
    DotSymmetric(e, ones);
    DotSymmetric(ones, y);
    DotSymmetric(ones, x);
    DotLinear(ones, y, -m, x);
    ZeroProduct(-m, 0.0);
  }

  /** How far another line lies above the estimate, at each point. */
  function LineGap(p: seq<Point>, u: real, w: real): (g: Vector)
    requires p != []
    ensures |g| == |p| && forall i :: 0 <= i < |p| ==> g[i] == w + u * Centred(Xs(p))[i]
  {
    Combine(Constant(|p|, w), u, Centred(Xs(p)))
  }

  lemma GapOrthogonal(p: seq<Point>, m: real, c: real, u: real, w: real)
    requires Slope(p) == Some(m) && c == Mean(Ys(p)) - m * Mean(Xs(p))
    ensures Dot(Residuals(p, m, c), LineGap(p, u, w)) == 0.0
  {
    NormalEquations(p, m, c);
    DotLinear(Residuals(p, m, c), Constant(|p|, w), u, Centred(Xs(p)));
    DotConstant(Residuals(p, m, c), w);
    ZeroProduct(w, 0.0);
    ZeroProduct(u, 0.0);
  }

  lemma OtherResidual(x: real, y: real, mx: real, m: real, c: real, slope: real, intercept: real)
    ensures y - (slope * x + intercept)
         == (y - (m * x + c)) + -1.0 * ((slope * mx + intercept - (m * mx + c)) + (slope - m) * (x - mx))
  {
    assert (slope - m) * (x - mx) == slope * x - slope * mx - (m * x - m * mx) by {
      Distribute(slope - m, x, -mx);
      assert (slope - m) * x == slope * x - m * x;
      assert (slope - m) * mx == slope * mx - m * mx;
    }
  }

  /** The slope with the intercept through the means is the least-squares line: no line errs less, and every
      other line errs more. */
  lemma SlopeIsBest(p: seq<Point>, m: real, c: real, slope: real, intercept: real)
    requires Slope(p) == Some(m) && c == Mean(Ys(p)) - m * Mean(Xs(p))
    ensures SquaredError(p, m, c) <= SquaredError(p, slope, intercept)
    ensures SquaredError(p, slope, intercept) == SquaredError(p, m, c) <==> slope == m && intercept == c
  {
    var mx := Mean(Xs(p));
    var u, w := slope - m, slope * mx + intercept - (m * mx + c);
    var g := LineGap(p, u, w);
    GapOrthogonal(p, m, c, u, w);
    Pythagoras(Residuals(p, m, c), g);
    ResidualsDiffer(p, m, c, slope, intercept, u, w);
    DotSelf(g);
    GapVanishes(p, u, w);
    SameLine(mx, m, c, slope, intercept, u, w);
  }

  lemma SameLine(mx: real, m: real, c: real, slope: real, intercept: real, u: real, w: real)
    requires u == slope - m && w == slope * mx + intercept - (m * mx + c)
    ensures u == 0.0 && w == 0.0 <==> slope == m && intercept == c
  {
    if slope == m { assert slope * mx == m * mx; }
  }

  lemma ResidualsDiffer(p: seq<Point>, m: real, c: real, slope: real, intercept: real, u: real, w: real)
    requires p != []
    requires u == slope - m && w == slope * Mean(Xs(p)) + intercept - (m * Mean(Xs(p)) + c)
    ensures Residuals(p, slope, intercept) == Combine(Residuals(p, m, c), -1.0, LineGap(p, u, w))
  {
    var r, e, g := Residuals(p, slope, intercept), Residuals(p, m, c), LineGap(p, u, w);
    forall i | 0 <= i < |p| ensures r[i] == e[i] + -1.0 * g[i] {
      OtherResidual(p[i].x, p[i].y, Mean(Xs(p)), m, c, slope, intercept);
    }
  }

  /** A line that meets the estimate at every point is the estimate. */
  lemma GapVanishes(p: seq<Point>, u: real, w: real)
    requires Slope(p).Some?
    ensures (forall i :: 0 <= i < |p| ==> LineGap(p, u, w)[i] == 0.0) <==> u == 0.0 && w == 0.0
  {
    var g := LineGap(p, u, w);
    if forall i :: 0 <= i < |p| ==> g[i] == 0.0 { VanishingGap(p, u, w); }
    if u == 0.0 && w == 0.0 {
      forall i | 0 <= i < |p| ensures g[i] == 0.0 { ZeroProduct(u, Centred(Xs(p))[i]); }
    }
  }

  lemma VanishingGap(p: seq<Point>, u: real, w: real)
    requires Slope(p).Some? && forall i :: 0 <= i < |p| ==> LineGap(p, u, w)[i] == 0.0
    ensures u == 0.0 && w == 0.0
  {
    var i, j := DifferentXs(p);
    var mean := Mean(Xs(p));
    ZeroAt(p, u, w, i, p[i].x - mean);
    ZeroAt(p, u, w, j, p[j].x - mean);
    TwoZeros(u, w, p[i].x - mean, p[j].x - mean);
  }

  lemma DifferentXs(p: seq<Point>) returns (i: nat, j: nat)
    requires Slope(p).Some?
    ensures i < |p| && j < |p| && p[i].x != p[j].x
  {
    NoSlopeExactly(p);
    i, j :| 0 <= i < |p| && 0 <= j < |p| && p[i].x != p[j].x;
  }

  lemma ZeroAt(p: seq<Point>, u: real, w: real, i: nat, a: real)
    requires i < |p| && a == p[i].x - Mean(Xs(p)) && LineGap(p, u, w)[i] == 0.0
    ensures w + u * a == 0.0
  {
    assert Centred(Xs(p))[i] == a;
  }

  lemma TwoZeros(u: real, w: real, a: real, b: real)
    requires w + u * a == 0.0 && w + u * b == 0.0 && a != b
    ensures u == 0.0 && w == 0.0
  {
    Distribute(u, a, -b);
    var d := a - b;
    assert u * d == 0.0;
    if u != 0.0 { NonZeroProduct(u, d); }
    ZeroProduct(u, a);
  }

  lemma NonZeroProduct(a: real, b: real)
    requires a != 0.0 && b != 0.0
    ensures a * b != 0.0
  {
  }

  // ---- Exact recovery and the baseline ----------------------------------------------------------

  lemma AffineMean(sx: real, sy: real, n: real, a: real, b: real)
    requires n > 0.0 && sy == b * sx + n * a
    ensures sy / n == b * (sx / n) + a
  {
    var q := sx / n;
    assert sx == n * q;
    assert b * (n * q) == n * (b * q);
    Quotient(sy, n, b * q + a);
  }

  lemma {:induction false} AffineSum(v: Vector, w: Vector, a: real, b: real, k: nat, n: real)
    requires k <= |v| == |w| && n == k as real && forall i :: 0 <= i < |v| ==> w[i] == b * v[i] + a
    ensures SumTo(w, k) == b * SumTo(v, k) + n * a
  {
    if k == 0 {
      ZeroProduct(b, 0.0);
      ZeroProduct(n, a);
    } else {
      AffineSum(v, w, a, b, k - 1, n - 1.0);
      Distribute(b, SumTo(v, k - 1), v[k - 1]);
      Distribute(a, n - 1.0, 1.0);
    }
  }

  lemma AffineMeans(v: Vector, w: Vector, a: real, b: real)
    requires v != [] && |v| == |w| && forall i :: 0 <= i < |v| ==> w[i] == b * v[i] + a
    ensures Mean(w) == b * Mean(v) + a
  {
    AffineSum(v, w, a, b, |v|, |v| as real);
    AffineMean(Sum(v), Sum(w), |v| as real, a, b);
  }

  /** Along an affine map the deviations are scaled by its slope. */
  lemma AffineCentred(v: Vector, w: Vector, a: real, b: real)
    requires v != [] && |v| == |w| && forall i :: 0 <= i < |v| ==> w[i] == b * v[i] + a
    ensures Centred(w) == Combine(Constant(|v|, 0.0), b, Centred(v))
  {
    AffineMeans(v, w, a, b);
    var cw, scaled := Centred(w), Combine(Constant(|v|, 0.0), b, Centred(v));
    forall i | 0 <= i < |v| ensures cw[i] == scaled[i] { ScaledDeviation(v[i], Mean(v), w[i], Mean(w), a, b); }
  }

  lemma ScaledDeviation(x: real, mx: real, y: real, my: real, a: real, b: real)
    requires y == b * x + a && my == b * mx + a
    ensures y - my == 0.0 + b * (x - mx)
  {
    assert b * (x - mx) == b * x - b * mx;
  }

  /** On points of a line with slope b the estimate is b. */
  lemma CollinearSlope(p: seq<Point>, a: real, b: real)
    requires Slope(p).Some? && forall i :: 0 <= i < |p| ==> p[i].y == b * p[i].x + a
    ensures Slope(p).value == b
  {
    var x := Centred(Xs(p));
    AffineCentred(Xs(p), Ys(p), a, b);
    DotLinear(x, Constant(|p|, 0.0), b, x);
    DotConstant(x, 0.0);
    ZeroProduct(0.0, Sum(x));
    Quotient(Dot(x, Centred(Ys(p))), Dot(x, x), b);
  }

  function Lowered(p: seq<Point>, base: real): (r: seq<Point>)
    ensures |r| == |p| && forall i :: 0 <= i < |p| ==> r[i] == Point(p[i].x, p[i].y - base)
  {
    seq(|p|, i requires 0 <= i < |p| => Point(p[i].x, p[i].y - base))
  }

  /** Subtracting one baseline from every mean leaves the slope as it is. */
  lemma BaselineDropsOut(p: seq<Point>, base: real)
    ensures Slope(Lowered(p, base)) == Slope(p)
  {
    if |p| >= 2 {
      var q := Lowered(p, base);
      assert Xs(q) == Xs(p);
      AffineCentred(Ys(p), Ys(q), -base, 1.0);
      assert Centred(Ys(q)) == Centred(Ys(p));
    }
  }

  // ---- The derivation for one service -----------------------------------------------------------

  datatype Steady = Steady(level: nat, mean: Option<real>)
  datatype Derived = Derived(deltas: seq<Option<real>>, perStream: seq<Option<real>>, slope: Option<real>)

  /** The levels with a mean, as points. */
  function Measured(steady: seq<Steady>): seq<Point> {
    if steady == [] then []
    else
      var last := steady[|steady| - 1];
      Measured(steady[..|steady| - 1]) + if last.mean.Some? then [Point(last.level as real, last.mean.value)] else []
  }

  /** `_derive_incremental_rss`: the slope over the deltas is the slope over the means themselves, and each
      per-stream figure times its level is its delta. */
  method DeriveService(base: Option<real>, steady: seq<Steady>) returns (d: Derived)
    requires forall i :: 0 <= i < |steady| ==> steady[i].level >= 1
    ensures |d.deltas| == |steady| == |d.perStream|
    ensures forall i :: 0 <= i < |steady| ==> FigureOf(base, steady[i], d.deltas[i], d.perStream[i])
    ensures d.slope == if base.Some? then Slope(Measured(steady)) else None
  {
    var deltas: seq<Option<real>>, perStream: seq<Option<real>>, points: seq<Point> := [], [], [];
    var i := 0;
    while i < |steady|
      invariant 0 <= i <= |steady| && |deltas| == |perStream| == i
      invariant forall j :: 0 <= j < i ==> FigureOf(base, steady[j], deltas[j], perStream[j])
      invariant points == if base.Some? then Lowered(Measured(steady[..i]), base.value) else []
    {
      if base.Some? { MeasuredStep(base.value, steady, i); }
      var delta, ratio := Figure(base, steady[i]);
      deltas, perStream := deltas + [delta], perStream + [ratio];
      if delta.Some? { points := points + [Point(steady[i].level as real, delta.value)]; }
      i := i + 1;
    }
    assert steady[..i] == steady;
    if base.Some? { BaselineDropsOut(Measured(steady), base.value); }
    d := Derived(deltas, perStream, Slope(points));
  }

  lemma MeasuredStep(base: real, steady: seq<Steady>, i: nat)
    requires i < |steady|
    ensures var before := Lowered(Measured(steady[..i]), base);
            Lowered(Measured(steady[..i + 1]), base) ==
              if steady[i].mean.Some?
              then before + [Point(steady[i].level as real, steady[i].mean.value - base)] else before
  {
    assert steady[..i + 1][..i] == steady[..i];
  }

  /** The two figures of one level. */
  ghost predicate FigureOf(base: Option<real>, s: Steady, delta: Option<real>, ratio: Option<real>) {
    && (delta.Some? <==> base.Some? && s.mean.Some?)
    && (ratio.Some? <==> delta.Some?)
    && (delta.Some? ==> delta.value + base.value == s.mean.value && ratio.value * s.level as real == delta.value)
  }

  method Figure(base: Option<real>, s: Steady) returns (delta: Option<real>, ratio: Option<real>)
    requires s.level >= 1
    ensures FigureOf(base, s, delta, ratio)
  {
    if base.None? || s.mean.None? { return None, None; }
    var d := s.mean.value - base.value;
    delta, ratio := Some(d), Some(d / s.level as real);
  }
}

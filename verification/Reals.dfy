/** Facts of real arithmetic, stated on bare variables so that each is one small query. */
module Reals {
  lemma MulNonNegative(x: real, y: real)
    requires x >= 0.0 && y >= 0.0
    ensures x * y >= 0.0
  {
  }

  lemma MulPositive(x: real, y: real)
    requires x > 0.0 && y > 0.0
    ensures x * y > 0.0
  {
  }

  function Mul(x: real, y: real): real {
    x * y
  }

  function Sq(x: real): real {
    Mul(x, x)
  }

  lemma MulSign(x: real, y: real)
    ensures x > 0.0 && y > 0.0 ==> Mul(x, y) > 0.0
    ensures x < 0.0 && y < 0.0 ==> Mul(x, y) > 0.0
    ensures x == 0.0 ==> Mul(x, y) == 0.0
  {
    if x < 0.0 && y < 0.0 {
      MulPositive(-x, -y);
    }
  }

  lemma SquarePositive(x: real)
    ensures Sq(x) >= 0.0
    ensures x != 0.0 <==> Sq(x) > 0.0
  {
    hide Mul;
    MulSign(x, x);
  }

  lemma DivideMultiply(x: real, y: real)
    requires y != 0.0
    ensures x / y * y == x
  {
  }

  lemma DividePositive(x: real, y: real)
    requires x > 0.0 && y > 0.0
    ensures x / y > 0.0 && x / y * y == x
  {
  }

  lemma MultiplyDivide(x: real, y: real)
    requires y != 0.0
    ensures x * y / y == x
  {
  }

  lemma SameQuotient(x: real, y: real, v: real)
    requires v > 0.0
    ensures x == y <==> x * v == y * v
  {
    MultiplyDivide(x, v);
    MultiplyDivide(y, v);
  }

  lemma QuotientIsUnique(q: real, x: real, y: real)
    requires y != 0.0 && q * y == x
    ensures q == x / y
  {
  }

  lemma DivideBound(x: real, y: real, z: real)
    requires y > 0.0
    ensures x / y >= z <==> x >= z * y
  {
    var q := x / y;
    DivideMultiply(x, y);
    assert (q - z) * y == x - z * y;
    if q >= z {
      MulNonNegative(q - z, y);
    } else {
      MulPositive(z - q, y);
      assert (z - q) * y == z * y - x;
    }
  }

  lemma SquaresOrdered(x: real, y: real)
    requires x >= 0.0 && y >= 0.0
    ensures x >= y <==> Sq(x) >= Sq(y)
  {
    DifferenceOfSquares(x, y);
    DifferenceOfSquares(y, x);
    hide Mul;
    if x >= y {
      MulNonNegative(x - y, x + y);
    } else {
      MulPositive(y - x, x + y);
    }
  }

  lemma DifferenceOfSquares(x: real, y: real)
    ensures Sq(x) - Sq(y) == (x - y) * (x + y)
  {
  }

  lemma Distribute(x: real, y: real, z: real)
    ensures x * (y + z) == x * y + x * z
    ensures x * (y - z) == x * y - x * z
  {
  }

  lemma Associate(x: real, y: real, z: real)
    ensures x * (y * z) == x * y * z == y * (x * z) == z * (x * y)
  {
  }

  lemma TwoSquares(v: real, x: real, w: real, y: real)
    requires v > 0.0 && w > 0.0
    ensures v * Sq(x) + w * Sq(y) >= 0.0
    ensures v * Sq(x) + w * Sq(y) == 0.0 <==> x == 0.0 && y == 0.0
  {
    hide Mul;
    SquarePositive(x);
    SquarePositive(y);
    Scaled(v, Sq(x));
    Scaled(w, Sq(y));
  }

  lemma Scaled(v: real, x: real)
    requires v > 0.0 && x >= 0.0
    ensures v * x >= 0.0
    ensures x > 0.0 <==> v * x > 0.0
  {
  }

  // ---------------------------------------------------------------------------
  // The arithmetic of one faded observation
  // ---------------------------------------------------------------------------

  /** An old sum fades and a new term joins it. */
  function Fade(decay: real, sum: real, term: real): real {
    decay * sum + term
  }

  /** A mean moves toward a new value by that value's share of the weight. */
  function Shift(mean: real, x: real, weight: real): real
    requires weight != 0.0
  {
    mean + (x - mean) / weight
  }

  /** A deviation from the old mean times one from the new mean. */
  function Deviate(x: real, mean: real, y: real, newMean: real): real {
    (x - mean) * (y - newMean)
  }

  lemma FadeGrows(decay: real, sum: real)
    requires 0.0 <= decay && sum >= 0.0
    ensures Fade(decay, sum, 1.0) >= 1.0
  {
    MulNonNegative(decay, sum);
  }

  lemma ShiftPositive(mean: real, x: real, weight: real)
    requires weight >= 1.0 && mean >= 0.0 && x > 0.0
    ensures Shift(mean, x, weight) > 0.0
  {
    var v := Shift(mean, x, weight);
    DivideMultiply(x - mean, weight);
    assert v * weight == mean * (weight - 1.0) + x;
    MulNonNegative(mean, weight - 1.0);
    MultiplyDivide(v, weight);
    DividePositive(v * weight, weight);
  }

  lemma ShiftTimesWeight(decay: real, mean: real, x: real, weight: real)
    requires Fade(decay, weight, 1.0) != 0.0
    ensures var w' := Fade(decay, weight, 1.0);
            Shift(mean, x, w') * w' == Fade(decay, mean * weight, x)
  {
    var w' := Fade(decay, weight, 1.0);
    DivideMultiply(x - mean, w');
    assert Shift(mean, x, w') * w' == mean * w' + (x - mean);
    assert mean * w' == decay * (mean * weight) + mean;
  }

  lemma VarianceStaysNonNegative(decay: real, v: real, mean: real, x: real, weight: real)
    requires decay >= 0.0 && v >= 0.0 && weight >= 1.0
    ensures Fade(decay, v, Deviate(x, mean, x, Shift(mean, x, weight))) >= 0.0
  {
    var e, q := x - mean, (x - mean) / weight;
    MulNonNegative(decay, v);
    DivideMultiply(e, weight);
    assert x - Shift(mean, x, weight) == e - q == q * (weight - 1.0);
    Associate(e, q, weight - 1.0);
    Associate(q, weight, q);
    assert e * q == weight * Sq(q);
    hide Mul;
    SquarePositive(q);
    MulNonNegative(weight, Sq(q));
    MulNonNegative(e * q, weight - 1.0);
  }

  /**
   Welford's step. With sx = mean * weight before and after, the deviation term is
   exactly what turns xy - mean * sx for the old sums into the same for the new.
   */
  lemma WelfordStep(decay: real, xy: real, sx: real, u: real, s: real, w: real, x: real, y: real, v: real, t: real)
    requires sx == u * w
    requires v * Fade(decay, w, 1.0) == Fade(decay, sx, x)
    requires t * Fade(decay, w, 1.0) == Fade(decay, s * w, y)
    ensures Fade(decay, xy - s * sx, Deviate(x, u, y, t)) == Fade(decay, xy, Mul(x, y)) - t * Fade(decay, sx, x)
  {
    var w' := Fade(decay, w, 1.0);
    assert u * w' == decay * sx + u;
    assert u * (t * w') == t * (u * w');
    assert u * (t * w') == u * (decay * (s * w) + y);
    Distribute(t, decay * sx, u);
    Distribute(u, decay * (s * w), y);
    assert u * (decay * (s * w)) == decay * (s * sx);
    assert t * Fade(decay, sx, x) == t * (decay * sx) + t * x;
    Distribute(decay, xy, s * sx);
    assert Deviate(x, u, y, t) == x * y - x * t - u * y + u * t;
  }

  /** A quadratic b^2 v - 2 b c is above its minimum, at c / v, by a square. */
  lemma CompleteSquare(v: real, c: real, b: real, best: real)
    requires best * v == c
    ensures (Sq(b) * v - 2.0 * (b * c)) - (Sq(best) * v - 2.0 * (best * c)) == v * Sq(b - best)
  {
    assert b * c == b * best * v;
    assert best * c == Sq(best) * v;
    assert Sq(b - best) == Sq(b) - 2.0 * (b * best) + Sq(best);
    assert v * Sq(b - best) == v * Sq(b) - 2.0 * (v * (b * best)) + v * Sq(best);
  }

  /** Sums n, x, y, xx, xy of a history, read as a weight, two means and two sums of deviations about them. */
  ghost predicate Centred(
    n: real, x: real, y: real, xx: real, xy: real,
    w: real, u: real, t: real, v: real, c: real)
  {
    w == n && u * n == x && t * n == y && v == xx - u * x && c == xy - t * x
  }

  lemma CentredStep(
    d: real, n: real, x: real, y: real, xx: real, xy: real,
    w: real, u: real, t: real, v: real, c: real, px: real, py: real)
    requires Centred(n, x, y, xx, xy, w, u, t, v, c)
    requires Fade(d, w, 1.0) != 0.0
    ensures var w' := Fade(d, w, 1.0);
            var u', t' := Shift(u, px, w'), Shift(t, py, w');
            Centred(
              Fade(d, n, 1.0), Fade(d, x, px), Fade(d, y, py), Fade(d, xx, Mul(px, px)), Fade(d, xy, Mul(px, py)),
              w', u', t', Fade(d, v, Deviate(px, u, px, u')), Fade(d, c, Deviate(px, u, py, t')))
  {
    var w' := Fade(d, w, 1.0);
    var u', t' := Shift(u, px, w'), Shift(t, py, w');
    ShiftTimesWeight(d, u, px, w);
    ShiftTimesWeight(d, t, py, w);
    WelfordStep(d, xx, x, u, u, w, px, px, u', u');
    WelfordStep(d, xy, x, u, t, w, px, py, u', t');
    hide Fade, Shift, Deviate, Mul;
  }

  /** Sums of points on the line s + b * x. */
  ghost predicate Collinear(s: real, b: real, n: real, x: real, y: real, xx: real, xy: real) {
    y == s * n + b * x && xy == s * x + b * xx
  }

  lemma CollinearStep(d: real, s: real, b: real, n: real, x: real, y: real, xx: real, xy: real, px: real, py: real)
    requires Collinear(s, b, n, x, y, xx, xy) && py == s + b * px
    ensures Collinear(s, b, Fade(d, n, 1.0), Fade(d, x, px), Fade(d, y, py), Fade(d, xx, Mul(px, px)), Fade(d, xy, Mul(px, py)))
  {
    assert px * py == s * px + b * (px * px);
    FadeLine(d, s, b, n, x, 1.0, px);
    FadeLine(d, s, b, x, xx, px, px * px);
  }

  lemma FadeLine(d: real, s: real, b: real, n: real, x: real, k: real, t: real)
    ensures Fade(d, s * n + b * x, s * k + b * t) == s * Fade(d, n, k) + b * Fade(d, x, t)
  {
  }

  /** Centred sums of points on a line: the mean point is on it and the covariance is b times the variance. */
  lemma CentredOnLine(
    s: real, b: real, n: real, x: real, y: real, xx: real, xy: real,
    w: real, u: real, t: real, v: real, c: real)
    requires n > 0.0
    requires Centred(n, x, y, xx, xy, w, u, t, v, c) && Collinear(s, b, n, x, y, xx, xy)
    ensures t == s + b * u && c == b * v
  {
    assert (s + b * u) * n == s * n + b * (u * n);
    SameQuotient(t, s + b * u, n);
    Distribute(b, xx, u * x);
    assert t * x == s * x + b * (u * x);
  }

  // ---------------------------------------------------------------------------
  // The squared error of a line
  // ---------------------------------------------------------------------------

  /** How far a point's time is from the line startup + slope * x, squared. */
  function Residual(startup: real, slope: real, x: real, y: real): real {
    Sq(y - startup - slope * x)
  }

  /** A quadratic in x and y with the given coefficients of 1, x, y, x^2, xy and y^2. */
  function QuadraticAt(c: real, cx: real, cy: real, cxx: real, cxy: real, cyy: real, x: real, y: real): real {
    Combine(c, cx, cy, cxx, cxy, cyy, 1.0, x, y, Mul(x, x), Mul(x, y), Mul(y, y))
  }

  function Combine(
    c: real, cx: real, cy: real, cxx: real, cxy: real, cyy: real,
    n: real, x: real, y: real, xx: real, xy: real, yy: real): real
  {
    Mul(c, n) + Mul(cx, x) + Mul(cy, y) + Mul(cxx, xx) + Mul(cxy, xy) + Mul(cyy, yy)
  }

  /** A linear combination of faded sums is the faded sum of the combinations. */
  lemma CombineFades(
    d: real, c: real, cx: real, cy: real, cxx: real, cxy: real, cyy: real,
    n: real, x: real, y: real, xx: real, xy: real, yy: real,
    pn: real, px: real, py: real, pxx: real, pxy: real, pyy: real)
    ensures Combine(c, cx, cy, cxx, cxy, cyy,
                    Fade(d, n, pn), Fade(d, x, px), Fade(d, y, py), Fade(d, xx, pxx), Fade(d, xy, pxy), Fade(d, yy, pyy)) ==
            Fade(d, Combine(c, cx, cy, cxx, cxy, cyy, n, x, y, xx, xy, yy),
                 Combine(c, cx, cy, cxx, cxy, cyy, pn, px, py, pxx, pxy, pyy))
  {
    FadeTerm(c, d, n, pn);
    FadeTerm(cx, d, x, px);
    FadeTerm(cy, d, y, py);
    FadeTerm(cxx, d, xx, pxx);
    FadeTerm(cxy, d, xy, pxy);
    FadeTerm(cyy, d, yy, pyy);
    FadesAdd(d, Mul(c, n), Mul(c, pn), Mul(cx, x), Mul(cx, px));
    var s, t := Mul(c, n) + Mul(cx, x), Mul(c, pn) + Mul(cx, px);
    FadesAdd(d, s, t, Mul(cy, y), Mul(cy, py));
    FadesAdd(d, s + Mul(cy, y), t + Mul(cy, py), Mul(cxx, xx), Mul(cxx, pxx));
    var s', t' := s + Mul(cy, y) + Mul(cxx, xx), t + Mul(cy, py) + Mul(cxx, pxx);
    FadesAdd(d, s', t', Mul(cxy, xy), Mul(cxy, pxy));
    FadesAdd(d, s' + Mul(cxy, xy), t' + Mul(cxy, pxy), Mul(cyy, yy), Mul(cyy, pyy));
    hide Fade, Mul;
  }

  lemma FadeTerm(q: real, d: real, m: real, t: real)
    ensures Mul(q, Fade(d, m, t)) == Fade(d, Mul(q, m), Mul(q, t))
  {
  }

  lemma FadesAdd(d: real, m: real, t: real, m': real, t': real)
    ensures Fade(d, m, t) + Fade(d, m', t') == Fade(d, m + m', t + t')
  {
  }

  lemma ExpandTriple(t: real, s: real, z: real)
    ensures Sq(t - s - z) == t * t + s * s + z * z - 2.0 * (s * t) - 2.0 * (t * z) + 2.0 * (s * z)
  {
  }

  /** A product of deviations, and a squared deviation, as quadratics in the point. */
  lemma ExpandDeviation(u: real, s: real, c: real, cx: real, cy: real, x: real, y: real)
    requires c == u * s && cx == -s && cy == -u
    ensures Deviate(x, u, y, s) == QuadraticAt(c, cx, cy, 0.0, 1.0, 0.0, x, y)
  {
  }

  lemma ExpandSquare(u: real, c: real, cx: real, x: real, y: real)
    requires c == u * u && cx == -2.0 * u
    ensures Sq(x - u) == QuadraticAt(c, cx, 0.0, 1.0, 0.0, 0.0, x, y)
  {
  }

  lemma CentreDeviation(
    c0: real, cx: real, cy: real, n: real, x: real, y: real, xx: real, xy: real, yy: real,
    w: real, u: real, t: real, v: real, c: real)
    requires Centred(n, x, y, xx, xy, w, u, t, v, c)
    requires c0 == u * t && cx == -t && cy == -u
    ensures Combine(c0, cx, cy, 0.0, 1.0, 0.0, n, x, y, xx, xy, yy) == c
  {
    assert c0 * n == t * x == u * y;
  }

  lemma CentreSquare(
    c0: real, cx: real, n: real, x: real, y: real, xx: real, xy: real, yy: real,
    w: real, u: real, t: real, v: real, c: real)
    requires Centred(n, x, y, xx, xy, w, u, t, v, c)
    requires c0 == u * u && cx == -2.0 * u
    ensures Combine(c0, cx, 0.0, 1.0, 0.0, 0.0, n, x, y, xx, xy, yy) == v
  {
    assert c0 * n == u * x;
  }

  lemma CentreSums(n: real, x: real, y: real, xx: real, xy: real, yy: real)
    ensures Combine(1.0, 0.0, 0.0, 0.0, 0.0, 0.0, n, x, y, xx, xy, yy) == n
    ensures Combine(0.0, 1.0, 0.0, 0.0, 0.0, 0.0, n, x, y, xx, xy, yy) == x
    ensures Combine(0.0, 0.0, 1.0, 0.0, 0.0, 0.0, n, x, y, xx, xy, yy) == y
    ensures QuadraticAt(1.0, 0.0, 0.0, 0.0, 0.0, 0.0, x, y) == 1.0
    ensures QuadraticAt(0.0, 1.0, 0.0, 0.0, 0.0, 0.0, x, y) == x
    ensures QuadraticAt(0.0, 0.0, 1.0, 0.0, 0.0, 0.0, x, y) == y
  {
  }

  lemma CentredMeans(
    n: real, x: real, y: real, xx: real, xy: real, w: real, u: real, t: real, v: real, c: real)
    requires Centred(n, x, y, xx, xy, w, u, t, v, c) && n != 0.0
    ensures w == n && u == x / w && t == y / w
  {
    QuotientIsUnique(u, x, n);
    QuotientIsUnique(t, y, n);
  }

  /** A line's squared residual, as a quadratic in the point. */
  lemma ExpandResidual(s: real, b: real, c: real, cx: real, cy: real, cxx: real, cxy: real, x: real, y: real)
    requires c == s * s && cx == 2.0 * (s * b) && cy == -2.0 * s && cxx == b * b && cxy == -2.0 * b
    ensures Residual(s, b, x, y) == QuadraticAt(c, cx, cy, cxx, cxy, 1.0, x, y)
  {
    ExpandTriple(y, s, b * x);
    assert b * x * (b * x) == b * b * (x * x);
    assert s * (b * x) == s * b * x;
    assert y * (b * x) == b * (x * y);
  }

  /**
   The squared error of a line in centred terms: v and c are the variance and
   covariance, (u, t) the mean point, w the weight, and e what no line explains.
   */
  ghost function LossOf(e: real, v: real, c: real, w: real, u: real, t: real, startup: real, slope: real): real {
    e + (Sq(slope) * v - 2.0 * (slope * c)) + w * Sq(t - startup - slope * u)
  }

  /** The squared deviation of the seconds about their mean t. */
  ghost function Unexplained(yy: real, t: real, y: real): real {
    yy - t * y
  }

  lemma CentreLoss(
    s: real, b: real, c0: real, cx: real, cy: real, cxx: real, cxy: real,
    n: real, x: real, y: real, xx: real, xy: real, yy: real,
    w: real, u: real, t: real, v: real, c: real)
    requires c0 == s * s && cx == 2.0 * (s * b) && cy == -2.0 * s && cxx == b * b && cxy == -2.0 * b
    requires Centred(n, x, y, xx, xy, w, u, t, v, c)
    ensures Combine(c0, cx, cy, cxx, cxy, 1.0, n, x, y, xx, xy, yy) == LossOf(Unexplained(yy, t, y), v, c, w, u, t, s, b)
  {
    CentreMiss(n, x, y, u, t, s, b);
    Distribute(b * b, xx, u * x);
    Distribute(b, xy, t * x);
    assert Mul(cx, x) == 2.0 * (s * b * x);
    hide Mul;
    assert LossOf(Unexplained(yy, t, y), v, c, w, u, t, s, b) ==
           yy - t * y + (Sq(b) * v - 2.0 * (b * c)) + n * Sq(t - s - b * u);
    SquareTimes(b, v, xx - u * x);
    CombineLoss(s, b, c0, cx, cy, cxx, cxy, n, x, y, xx, xy, yy);
  }

  lemma SquareTimes(b: real, v: real, v': real)
    requires v == v'
    ensures Sq(b) * v == b * b * v'
  {
  }

  lemma CombineLoss(
    s: real, b: real, c0: real, cx: real, cy: real, cxx: real, cxy: real,
    n: real, x: real, y: real, xx: real, xy: real, yy: real)
    requires c0 == s * s && cx == 2.0 * (s * b) && cy == -2.0 * s && cxx == b * b && cxy == -2.0 * b
    ensures Combine(c0, cx, cy, cxx, cxy, 1.0, n, x, y, xx, xy, yy) ==
            s * s * n + 2.0 * (s * b * x) - 2.0 * (s * y) + b * b * xx - 2.0 * (b * xy) + yy
  {
  }

  lemma CentreMiss(n: real, x: real, y: real, u: real, t: real, s: real, b: real)
    requires u * n == x && t * n == y
    ensures n * Sq(t - s - b * u) ==
            t * y + s * s * n + b * b * (u * x) - 2.0 * (s * y) - 2.0 * (b * (t * x)) + 2.0 * (s * b * x)
  {
    var z := b * u;
    ExpandTriple(t, s, z);
    DistributeSix(n, t * t, s * s, z * z, s * t, t * z, s * z);
    assert n * (t * t) == t * y;
    assert n * (s * t) == s * y;
    assert n * (z * z) == b * b * (u * x);
    assert n * (t * z) == b * (t * x);
    assert n * (s * z) == s * b * x;
  }

  lemma DistributeSix(n: real, a: real, b: real, c: real, e: real, f: real, g: real)
    ensures n * (a + b + c - 2.0 * e - 2.0 * f + 2.0 * g) ==
            n * a + n * b + n * c - 2.0 * (n * e) - 2.0 * (n * f) + 2.0 * (n * g)
  {
  }

  lemma LossGap(e: real, v: real, c: real, w: real, u: real, t: real, startup: real, slope: real, bestStart: real, best: real)
    requires best * v == c && bestStart == t - best * u
    ensures LossOf(e, v, c, w, u, t, startup, slope) - LossOf(e, v, c, w, u, t, bestStart, best) ==
            v * Sq(slope - best) + w * Sq(t - startup - slope * u)
  {
    CompleteSquare(v, c, slope, best);
    SquarePositive(0.0);
    hide Mul;
  }

  /** The line through (u, t) with slope c / v has less squared error than every other line. */
  lemma LeastLoss(e: real, v: real, c: real, w: real, u: real, t: real, startup: real, slope: real, bestStart: real, best: real)
    requires v > 0.0 && w > 0.0
    requires best * v == c && bestStart == t - best * u
    ensures LossOf(e, v, c, w, u, t, bestStart, best) <= LossOf(e, v, c, w, u, t, startup, slope)
    ensures LossOf(e, v, c, w, u, t, bestStart, best) == LossOf(e, v, c, w, u, t, startup, slope) <==>
            startup == bestStart && slope == best
  {
    LossGap(e, v, c, w, u, t, startup, slope, bestStart, best);
    TwoSquares(v, slope - best, w, t - startup - slope * u);
    assert slope == best ==> slope * u == best * u;
    hide Mul, LossOf;
  }

  lemma OriginLoss(e: real, v: real, c: real, w: real, u: real, t: real, b: real)
    ensures LossOf(e, v, c, w, u, t, 0.0, b) ==
            e + w * (t * t) + (Sq(b) * (v + w * Sq(u)) - 2.0 * (b * (c + w * (u * t))))
  {
    var z := b * u;
    ExpandTriple(t, 0.0, z);
    assert w * (t * t + z * z - 2.0 * (t * z)) == w * (t * t) + w * (z * z) - 2.0 * (w * (t * z));
    assert w * (z * z) == Sq(b) * (w * Sq(u));
    assert w * (t * z) == b * (w * (u * t));
    Distribute(Sq(b), v, w * Sq(u));
    Distribute(b, c, w * (u * t));
  }

  /** Among lines through the origin, the one with slope b has the least squared error, and no other has as little. */
  lemma OriginLeast(e: real, v: real, c: real, w: real, u: real, t: real, vv: real, cc: real, b: real, x: real)
    requires vv == v + w * Sq(u) && cc == c + w * (u * t)
    requires vv > 0.0 && Mul(b, vv) == cc
    ensures LossOf(e, v, c, w, u, t, 0.0, b) <= LossOf(e, v, c, w, u, t, 0.0, x)
    ensures LossOf(e, v, c, w, u, t, 0.0, b) == LossOf(e, v, c, w, u, t, 0.0, x) <==> x == b
  {
    OriginLossIn(e, v, c, w, u, t, vv, cc, x);
    OriginLossIn(e, v, c, w, u, t, vv, cc, b);
    CompleteSquare(vv, cc, x, b);
    SquarePositive(x - b);
    Scaled(vv, Sq(x - b));
    hide Mul, LossOf;
  }

  lemma OriginLossIn(e: real, v: real, c: real, w: real, u: real, t: real, vv: real, cc: real, b: real)
    requires vv == v + w * Sq(u) && cc == c + w * (u * t)
    ensures LossOf(e, v, c, w, u, t, 0.0, b) == e + w * (t * t) + (Sq(b) * vv - 2.0 * (b * cc))
  {
    OriginLoss(e, v, c, w, u, t, b);
    hide Mul, LossOf;
  }

  /** The slope r through the mean point is the best one through the origin exactly if the fitted line needs no startup. */
  lemma PinnedSlope(v: real, c: real, w: real, u: real, t: real, r: real, b: real, slope: real)
    requires v > 0.0 && u > 0.0 && v + w * Sq(u) > 0.0
    requires r == t / u
    requires b * (v + w * Sq(u)) == c + w * (u * t)
    requires slope * v == c
    ensures r - b == 0.0 <==> t - slope * u == 0.0
  {
    DivideMultiply(t, u);
    assert r * (w * Sq(u)) == w * (u * (r * u));
    Distribute(r, v, w * Sq(u));
    SameQuotient(r, b, v + w * Sq(u));
    SameQuotient(r, slope, v);
    SameQuotient(r, slope, u);
  }
}

/**
 The online line learner (internal/learner/line.go). A weighted Welford update
 keeps the faded means and deviations of all observed (bytes, seconds) points,
 and each observation refits startup + bytes * secondsPerByte through them.

 Main results: the running fields are the closed-form faded sums over the whole
 history, an accepted fit is the least-squares line of that history, a belief is
 never unusable, and points on one line make the learner find and keep it.
 */
module LineFit {
  import opened Results
  import opened Learning
  import opened Reals
  import opened Sums

  type Alpha = a: real | 0.0 < a <= 1.0 witness 1.0

  datatype Fields = Fields(
    weight: real, meanBytes: real, meanSeconds: real, bytesVar: real, bytesSecondsCov: real,
    startup: real, secondsPerByte: real)

  /** What every reachable state satisfies, and what keeps the divisions below defined. */
  type Line = l: Fields | l.weight >= 0.0 && l.meanBytes >= 0.0 && l.bytesVar >= 0.0
    witness Fields(0.0, 0.0, 0.0, 0.0, 0.0, 0.0, 0.0)

  predicate Observed(l: Line) {
    l.weight >= 1.0 && l.meanBytes > 0.0
  }

  /** A line that has observed something. */
  type Fitted = l: Line | Observed(l)
    witness Fields(1.0, 1.0, 0.0, 0.0, 0.0, 0.0, 0.0)

  function Fresh(secondsPerByte: real): Line {
    Fields(0.0, 0.0, 0.0, 0.0, 0.0, 0.0, secondsPerByte)
  }

  // ---------------------------------------------------------------------------
  // One observation
  // ---------------------------------------------------------------------------

  /** Fade old points, then add this one with weight 1. */
  function Accumulate(a: Alpha, l: Line, bytes: Positive, seconds: real): Fitted {
    var decay := 1.0 - a;
    FadeGrows(decay, l.weight);
    var weight := Fade(decay, l.weight, 1.0);
    ShiftPositive(l.meanBytes, bytes, weight);
    var meanBytes := Shift(l.meanBytes, bytes, weight);
    var meanSeconds := Shift(l.meanSeconds, seconds, weight);
    VarianceStaysNonNegative(decay, l.bytesVar, l.meanBytes, bytes, weight);
    l.(weight := weight,
       meanBytes := meanBytes,
       meanSeconds := meanSeconds,
       bytesVar := Fade(decay, l.bytesVar, Deviate(bytes, l.meanBytes, bytes, meanBytes)),
       bytesSecondsCov := Fade(decay, l.bytesSecondsCov, Deviate(bytes, l.meanBytes, seconds, meanSeconds)))
  }

  const MIN_RELATIVE_SPREAD := 0.1

  /** The spread test of the source without its square root (see SpreadTest). */
  predicate Spread(l: Fitted) {
    l.bytesVar / l.weight >= Sq(MIN_RELATIVE_SPREAD * l.meanBytes)
  }

  /** sqrt(bytesVar / weight) / meanBytes >= 0.1 and the squared test agree, whatever number serves as the root. */
  lemma SpreadTest(l: Fitted, root: real)
    requires root >= 0.0 && Sq(root) == l.bytesVar / l.weight
    ensures root / l.meanBytes >= 0.1 <==> Spread(l)
  {
    hide Mul;
    DivideBound(root, l.meanBytes, MIN_RELATIVE_SPREAD);
    SquaresOrdered(root, MIN_RELATIVE_SPREAD * l.meanBytes);
  }

  lemma SpreadMeansVariance(l: Fitted)
    requires Spread(l)
    ensures l.bytesVar > 0.0
  {
    hide Mul;
    SquarePositive(MIN_RELATIVE_SPREAD * l.meanBytes);
    var q := l.bytesVar / l.weight;
    MulPositive(q, l.weight);
    DivideMultiply(l.bytesVar, l.weight);
  }

  function Slope(l: Fitted): (slope: real)
    requires Spread(l)
    ensures slope * l.bytesVar == l.bytesSecondsCov
  {
    SpreadMeansVariance(l);
    DivideMultiply(l.bytesSecondsCov, l.bytesVar);
    l.bytesSecondsCov / l.bytesVar
  }

  function Intercept(l: Fitted): real
    requires Spread(l)
  {
    l.meanSeconds - Slope(l) * l.meanBytes
  }

  /** The first branch of the refit: the fitted line itself is usable. */
  predicate Accepts(l: Fitted) {
    Spread(l) && Slope(l) > 0.0 && Intercept(l) >= 0.0
  }

  /** The second branch: a rising line whose startup would be negative. */
  predicate Pins(l: Fitted) {
    Spread(l) && Slope(l) > 0.0 && Intercept(l) < 0.0
  }

  function Refit(l: Fitted): Fitted {
    if Accepts(l) then l.(startup := Intercept(l), secondsPerByte := Slope(l))
    else if Pins(l) then l.(startup := 0.0, secondsPerByte := l.meanSeconds / l.meanBytes)
    else
      var startup := if l.startup >= l.meanSeconds then 0.0 else l.startup;
      l.(startup := startup, secondsPerByte := (l.meanSeconds - startup) / l.meanBytes)
  }

  function Observe(a: Alpha, l: Line, bytes: Positive, seconds: real): Line {
    Refit(Accumulate(a, l, bytes, seconds))
  }

  lemma RefitKeepsSums(l: Fitted)
    ensures Refit(l) == l.(startup := Refit(l).startup, secondsPerByte := Refit(l).secondsPerByte)
  {
    hide Mul;
  }

  /** Line as a simulator.Learner. */
  function LineBeliefs(a: Alpha): Beliefs<Line> {
    Beliefs(
      (l: Line, bytes: Positive, seconds: real) => Observe(a, l, bytes, seconds),
      (l: Line) => l.startup,
      (l: Line) => l.secondsPerByte)
  }

  /** The learner object, updated in place. */
  class LineLearner {
    const alpha: Alpha
    var weight: real
    var meanBytes: real
    var meanSeconds: real
    var bytesVar: real
    var bytesSecondsCov: real
    var startup: real
    var secondsPerByte: real

    function State(): Fields
      reads this
    {
      Fields(weight, meanBytes, meanSeconds, bytesVar, bytesSecondsCov, startup, secondsPerByte)
    }

    ghost predicate Valid()
      reads this
    {
      weight >= 0.0 && meanBytes >= 0.0 && bytesVar >= 0.0
    }

    /** The readings the loops take of this object are those of its beliefs. */
    function Startup(): (r: real)
      requires Valid()
      reads this
      ensures r == LineBeliefs(alpha).startup(State())
    {
      startup
    }

    function SecondsPerByte(): (r: real)
      requires Valid()
      reads this
      ensures r == LineBeliefs(alpha).secondsPerByte(State())
    {
      secondsPerByte
    }

    constructor (alpha: Alpha, secondsPerByte: real)
      ensures this.alpha == alpha && Valid() && State() == Fresh(secondsPerByte)
    {
      this.alpha := alpha;
      weight, meanBytes, meanSeconds := 0.0, 0.0, 0.0;
      bytesVar, bytesSecondsCov, startup := 0.0, 0.0, 0.0;
      this.secondsPerByte := secondsPerByte;
    }

    method ObserveTransfer(bytes: Positive, seconds: real)
      requires Valid()
      modifies this
      ensures Valid() && State() == Observe(alpha, old(State()), bytes, seconds)
    {
      hide Fade, Shift, Deviate, Mul;
      ghost var before: Line := State();
      var decay := 1.0 - alpha;
      FadeGrows(decay, weight);
      weight := Fade(decay, weight, 1.0);
      var newMean := Shift(meanBytes, bytes, weight);
      ShiftPositive(meanBytes, bytes, weight);
      meanSeconds := Shift(meanSeconds, seconds, weight);
      bytesVar := Fade(decay, bytesVar, Deviate(bytes, meanBytes, bytes, newMean));
      bytesSecondsCov := Fade(decay, bytesSecondsCov, Deviate(bytes, meanBytes, seconds, meanSeconds));
      meanBytes := newMean;
      assert State() == Accumulate(alpha, before, bytes, seconds);
      hide Accumulate, Refit;
      RefitLine();
    }

    /** The refit that ends an observation. */
    method RefitLine()
      requires Valid() && weight >= 1.0 && meanBytes > 0.0
      modifies this`startup, this`secondsPerByte
      ensures Valid() && State() == Refit(old(State()))
    {
      hide Mul;
      ghost var now: Fitted := State();
      if bytesVar / weight >= Sq(MIN_RELATIVE_SPREAD * meanBytes) {
        SpreadMeansVariance(now);
        var slope := bytesSecondsCov / bytesVar;
        var intercept := meanSeconds - slope * meanBytes;
        if slope > 0.0 && intercept >= 0.0 {
          startup, secondsPerByte := intercept, slope;
          return;
        } else if slope > 0.0 {
          startup, secondsPerByte := 0.0, meanSeconds / meanBytes;
          return;
        }
      }
      if startup >= meanSeconds {
        startup := 0.0;
      }
      secondsPerByte := (meanSeconds - startup) / meanBytes;
    }
  }

  datatype LearnerError = InvalidAlpha | InvalidSecondsPerByte

  method NewLine(alpha: real, secondsPerByte: real) returns (r: Result<LineLearner, LearnerError>)
    ensures r.Ok? <==> 0.0 < alpha <= 1.0 && secondsPerByte > 0.0
    ensures r.Ok? ==> fresh(r.value) && r.value.alpha == alpha && r.value.Valid() && r.value.State() == Fresh(secondsPerByte)
    ensures r == Err(InvalidAlpha) <==> !(0.0 < alpha <= 1.0)
  {
    if !(alpha > 0.0 && alpha <= 1.0) {
      return Err(InvalidAlpha);
    }
    if !(secondsPerByte > 0.0) {
      return Err(InvalidSecondsPerByte);
    }
    var l := new LineLearner(alpha, secondsPerByte);
    return Ok(l);
  }

  // ---------------------------------------------------------------------------
  // The running fields are faded sums over the whole history
  // ---------------------------------------------------------------------------

  /** The learner after a history, starting from a belief and no observation. */
  function After(a: Alpha, secondsPerByte: real, h: seq<Sample>): Line {
    LineBeliefs(a).Taught(Fresh(secondsPerByte), h)
  }

  lemma AfterStep(a: Alpha, spb: real, h: seq<Sample>)
    requires h != []
    ensures var last := h[|h| - 1];
            After(a, spb, h) == Observe(a, After(a, spb, h[..|h| - 1]), last.bytes, last.seconds)
  {
  }

  /** The fields, read as sums: what Welford's update keeps without ever forming the raw sums. */
  ghost predicate Matches(m: Moments, l: Line) {
    Centred(m.n, m.x, m.y, m.xx, m.xy, l.weight, l.meanBytes, l.meanSeconds, l.bytesVar, l.bytesSecondsCov)
  }

  lemma AccumulateMatches(a: Alpha, m: Moments, l: Line, p: Sample)
    requires Matches(m, l)
    ensures Matches(m.Plus(1.0 - a, p), Accumulate(a, l, p.bytes, p.seconds))
  {
    CentredStep(1.0 - a, m.n, m.x, m.y, m.xx, m.xy,
                l.weight, l.meanBytes, l.meanSeconds, l.bytesVar, l.bytesSecondsCov, p.bytes, p.seconds);
    hide Centred, Fade, Shift, Deviate;
  }

  lemma {:induction false} AfterMatches(a: Alpha, spb: real, h: seq<Sample>)
    ensures Matches(RawMoments(1.0 - a, h), After(a, spb, h))
    ensures h != [] ==> Observed(After(a, spb, h))
  {
    hide Fade, Shift, Deviate, Refit, Mul;
    if h != [] {
      hide Centred;
      var before, last := h[..|h| - 1], h[|h| - 1];
      AfterMatches(a, spb, before);
      AccumulateMatches(a, RawMoments(1.0 - a, before), After(a, spb, before), last);
      AfterStep(a, spb, h);
      RefitKeepsSums(Accumulate(a, After(a, spb, before), last.bytes, last.seconds));
      hide Accumulate, After;
    }
  }

  // The terms of the closed forms, one per transfer.

  ghost function One(): Sample -> real { (p: Sample) => 1.0 }

  ghost function Bytes(): Sample -> real { (p: Sample) => p.bytes }

  ghost function Seconds(): Sample -> real { (p: Sample) => p.seconds }

  ghost function SquaredDeviation(mean: real): Sample -> real {
    (p: Sample) => Sq(p.bytes - mean)
  }

  ghost function CrossDeviation(meanBytes: real, meanSeconds: real): Sample -> real {
    (p: Sample) => Deviate(p.bytes, meanBytes, p.seconds, meanSeconds)
  }

  /** How far a transfer's time is from a line, squared. */
  ghost function SquaredResidual(startup: real, slope: real): Sample -> real {
    (p: Sample) => Residual(startup, slope, p.bytes, p.seconds)
  }

  /** After any history the fields are the faded weight, means, and deviations about the current means. */
  lemma WelfordIsExact(a: Alpha, spb: real, h: seq<Sample>)
    requires h != []
    ensures var d, l := 1.0 - a, After(a, spb, h);
            && l.weight == Faded(d, h, One())
            && l.weight >= 1.0
            && l.meanBytes == Faded(d, h, Bytes()) / l.weight
            && l.meanSeconds == Faded(d, h, Seconds()) / l.weight
            && l.bytesVar == Faded(d, h, SquaredDeviation(l.meanBytes))
            && l.bytesSecondsCov == Faded(d, h, CrossDeviation(l.meanBytes, l.meanSeconds))
  {
    var d, l, m := 1.0 - a, After(a, spb, h), RawMoments(1.0 - a, h);
    AfterMatches(a, spb, h);
    CentredMeans(m.n, m.x, m.y, m.xx, m.xy, l.weight, l.meanBytes, l.meanSeconds, l.bytesVar, l.bytesSecondsCov);
    hide After, RawMoments, Faded, Mul, Deviate, SquaredDeviation, CrossDeviation;
    FadedSums(d, h);
    FadedDeviations(d, h, l);
  }

  lemma {:induction false} FadedSums(d: real, h: seq<Sample>)
    ensures var m := RawMoments(d, h);
            Faded(d, h, One()) == m.n && Faded(d, h, Bytes()) == m.x && Faded(d, h, Seconds()) == m.y
  {
    hide RawMoments, Faded, Combine, QuadraticAt;
    var m := RawMoments(d, h);
    CentreSums(m.n, m.x, m.y, m.xx, m.xy, m.yy);
    forall p: Sample
      ensures QuadraticAt(1.0, 0.0, 0.0, 0.0, 0.0, 0.0, p.bytes, p.seconds) == 1.0
      ensures QuadraticAt(0.0, 1.0, 0.0, 0.0, 0.0, 0.0, p.bytes, p.seconds) == p.bytes
      ensures QuadraticAt(0.0, 0.0, 1.0, 0.0, 0.0, 0.0, p.bytes, p.seconds) == p.seconds
    {
      CentreSums(0.0, p.bytes, p.seconds, 0.0, 0.0, 0.0);
    }
    FadedQuadratic(d, h, One(), Quadratic(1.0, 0.0, 0.0, 0.0, 0.0, 0.0));
    FadedQuadratic(d, h, Bytes(), Quadratic(0.0, 1.0, 0.0, 0.0, 0.0, 0.0));
    FadedQuadratic(d, h, Seconds(), Quadratic(0.0, 0.0, 1.0, 0.0, 0.0, 0.0));
  }

  lemma {:induction false} FadedDeviations(d: real, h: seq<Sample>, l: Line)
    requires Matches(RawMoments(d, h), l)
    ensures Faded(d, h, SquaredDeviation(l.meanBytes)) == l.bytesVar
    ensures Faded(d, h, CrossDeviation(l.meanBytes, l.meanSeconds)) == l.bytesSecondsCov
  {
    var m, u, t := RawMoments(d, h), l.meanBytes, l.meanSeconds;
    var q, r := Quadratic(u * u, -2.0 * u, 0.0, 1.0, 0.0, 0.0), Quadratic(u * t, -t, -u, 0.0, 1.0, 0.0);
    CentreSquare(q.c, q.x, m.n, m.x, m.y, m.xx, m.xy, m.yy, l.weight, u, t, l.bytesVar, l.bytesSecondsCov);
    CentreDeviation(r.c, r.x, r.y, m.n, m.x, m.y, m.xx, m.xy, m.yy, l.weight, u, t, l.bytesVar, l.bytesSecondsCov);
    forall p: Sample
      ensures SquaredDeviation(u)(p) == q.At(p)
      ensures CrossDeviation(u, t)(p) == r.At(p)
    {
      ExpandSquare(u, q.c, q.x, p.bytes, p.seconds);
      ExpandDeviation(u, t, r.c, r.x, r.y, p.bytes, p.seconds);
      hide QuadraticAt, Mul, Deviate;
    }
    hide RawMoments, Faded, Combine, Centred, QuadraticAt, Mul, Deviate;
    FadedQuadratic(d, h, SquaredDeviation(u), q);
    FadedQuadratic(d, h, CrossDeviation(u, t), r);
  }

  // ---------------------------------------------------------------------------
  // An accepted fit is the least-squares line
  // ---------------------------------------------------------------------------

  ghost function ResidualQuadratic(s: real, b: real): Quadratic {
    Quadratic(s * s, 2.0 * (s * b), -2.0 * s, b * b, -2.0 * b, 1.0)
  }

  /** The squared error of a line, computed from the learner's fields. */
  ghost function Loss(m: Moments, l: Line, startup: real, slope: real): real {
    LossOf(Unexplained(m.yy, l.meanSeconds, m.y), l.bytesVar, l.bytesSecondsCov, l.weight, l.meanBytes, l.meanSeconds,
           startup, slope)
  }

  /** The faded sum of squared residuals of any line is its Loss. */
  lemma {:induction false} ResidualsAreLoss(a: Alpha, spb: real, h: seq<Sample>, startup: real, slope: real)
    ensures Faded(1.0 - a, h, SquaredResidual(startup, slope)) ==
            Loss(RawMoments(1.0 - a, h), After(a, spb, h), startup, slope)
  {
    var l, m, q := After(a, spb, h), RawMoments(1.0 - a, h), ResidualQuadratic(startup, slope);
    AfterMatches(a, spb, h);
    CentreLoss(startup, slope, q.c, q.x, q.y, q.xx, q.xy, m.n, m.x, m.y, m.xx, m.xy, m.yy,
               l.weight, l.meanBytes, l.meanSeconds, l.bytesVar, l.bytesSecondsCov);
    forall p: Sample ensures SquaredResidual(startup, slope)(p) == q.At(p) {
      ExpandResidual(startup, slope, q.c, q.x, q.y, q.xx, q.xy, p.bytes, p.seconds);
      hide QuadraticAt, Residual;
    }
    hide After, RawMoments, Faded, Combine, LossOf, Unexplained, Centred, QuadraticAt, Residual;
    FadedQuadratic(1.0 - a, h, SquaredResidual(startup, slope), q);
  }

  /** What the last refit saw: the fields with the last transfer added. */
  function LastFit(a: Alpha, spb: real, h: seq<Sample>): Fitted
    requires h != []
  {
    Accumulate(a, After(a, spb, h[..|h| - 1]), h[|h| - 1].bytes, h[|h| - 1].seconds)
  }

  lemma LastFitKeepsSums(a: Alpha, spb: real, h: seq<Sample>)
    requires h != []
    ensures var fit := LastFit(a, spb, h);
            && After(a, spb, h) == Refit(fit)
            && Refit(fit) == fit.(startup := Refit(fit).startup, secondsPerByte := Refit(fit).secondsPerByte)
  {
    AfterStep(a, spb, h);
    RefitKeepsSums(LastFit(a, spb, h));
    hide Accumulate, Refit;
  }

  /**
   Whenever the fit is accepted, the belief is the one line with the least faded
   squared error over the whole history, among all real lines.
   */
  lemma AcceptedFitIsLeastSquares(a: Alpha, spb: real, h: seq<Sample>, startup: real, slope: real)
    requires h != [] && Accepts(LastFit(a, spb, h))
    ensures var l := After(a, spb, h);
            var best := Faded(1.0 - a, h, SquaredResidual(l.startup, l.secondsPerByte));
            && best <= Faded(1.0 - a, h, SquaredResidual(startup, slope))
            && (best == Faded(1.0 - a, h, SquaredResidual(startup, slope)) ==> startup == l.startup && slope == l.secondsPerByte)
  {
    var l, m, fit := After(a, spb, h), RawMoments(1.0 - a, h), LastFit(a, spb, h);
    LastFitKeepsSums(a, spb, h);
    ResidualsAreLoss(a, spb, h, startup, slope);
    ResidualsAreLoss(a, spb, h, l.startup, l.secondsPerByte);
    SpreadMeansVariance(fit);
    assert l == fit.(startup := Intercept(fit), secondsPerByte := Slope(fit)) by {
      hide LastFit, After, Spread, Slope, Intercept;
    }
    LeastLoss(Unexplained(m.yy, fit.meanSeconds, m.y), fit.bytesVar, fit.bytesSecondsCov, fit.weight,
              fit.meanBytes, fit.meanSeconds, startup, slope, Intercept(fit), Slope(fit)) by {
      hide LastFit, After, Spread, Refit;
    }
    hide After, LastFit, Refit, Faded, RawMoments, LossOf, Unexplained, Mul, Spread, Slope, Intercept;
  }

  /** The faded sums of bytes squared, and of bytes times seconds, from the centred fields. */
  ghost function RawVar(l: Fitted): real {
    l.bytesVar + l.weight * Sq(l.meanBytes)
  }

  ghost function RawCov(l: Fitted): real {
    l.bytesSecondsCov + l.weight * (l.meanBytes * l.meanSeconds)
  }

  lemma RawVarPositive(l: Fitted)
    ensures RawVar(l) > 0.0
  {
    hide Mul;
    SquarePositive(l.meanBytes);
    MulPositive(l.weight, Sq(l.meanBytes));
  }

  /** The slope of the least-squares line among those without a startup. */
  ghost function OriginSlope(l: Fitted): (slope: real)
    ensures Mul(slope, RawVar(l)) == RawCov(l)
  {
    RawVarPositive(l);
    DivideMultiply(RawCov(l), RawVar(l));
    RawCov(l) / RawVar(l)
  }

  /** The slope of the line without a startup through the mean point: what a pinned belief takes. */
  function MeanSlope(l: Fitted): real {
    l.meanSeconds / l.meanBytes
  }

  lemma MeanSlopeIsBestIff(l: Fitted)
    requires Spread(l)
    ensures MeanSlope(l) == OriginSlope(l) <==> Intercept(l) == 0.0
  {
    RawVarPositive(l);
    SpreadMeansVariance(l);
    hide Mul, Spread, Slope, OriginSlope;
    PinnedSlope(l.bytesVar, l.bytesSecondsCov, l.weight, l.meanBytes, l.meanSeconds, MeanSlope(l), OriginSlope(l), Slope(l));
  }

  /** No line without a startup has less faded squared error over the history than this slope. */
  ghost predicate BestWithoutStartup(d: real, h: seq<Sample>, slope: real) {
    forall x: real :: Faded(d, h, SquaredResidual(0.0, slope)) <= Faded(d, h, SquaredResidual(0.0, x))
  }

  lemma LeastAmong(e: real, l: Fitted, x: real)
    ensures var best := OriginSlope(l);
            var loss := LossOf(e, l.bytesVar, l.bytesSecondsCov, l.weight, l.meanBytes, l.meanSeconds, 0.0, best);
            var other := LossOf(e, l.bytesVar, l.bytesSecondsCov, l.weight, l.meanBytes, l.meanSeconds, 0.0, x);
            loss <= other && (loss == other <==> x == best)
  {
    RawVarPositive(l);
    OriginLeast(e, l.bytesVar, l.bytesSecondsCov, l.weight, l.meanBytes, l.meanSeconds, RawVar(l), RawCov(l), OriginSlope(l), x);
    hide Mul, LossOf, OriginSlope;
  }

  /** OriginSlope is the least-squares slope of the whole history without a startup, and the only one. */
  lemma OriginSlopeIsLeast(a: Alpha, spb: real, h: seq<Sample>, x: real)
    requires h != []
    ensures var d, best := 1.0 - a, OriginSlope(LastFit(a, spb, h));
            && Faded(d, h, SquaredResidual(0.0, best)) <= Faded(d, h, SquaredResidual(0.0, x))
            && (Faded(d, h, SquaredResidual(0.0, best)) == Faded(d, h, SquaredResidual(0.0, x)) <==> x == best)
  {
    var m, l := RawMoments(1.0 - a, h), LastFit(a, spb, h);
    var best := OriginSlope(l);
    ResidualsAreLoss(a, spb, h, 0.0, best);
    ResidualsAreLoss(a, spb, h, 0.0, x);
    LastFitKeepsSums(a, spb, h);
    RawVarPositive(l);
    hide LossOf, Unexplained, Faded, RawMoments, After, LastFit, Refit, OriginSlope, SquaredResidual;
    LeastAmong(Unexplained(m.yy, l.meanSeconds, m.y), l, x);
  }

  /**
   The line without a startup through the mean point is the best one without a
   startup for the whole history if and only if the fitted intercept is 0.
   */
  lemma PinnedFitIsBestIffUnpinned(a: Alpha, spb: real, h: seq<Sample>)
    requires h != [] && Spread(LastFit(a, spb, h))
    ensures BestWithoutStartup(1.0 - a, h, MeanSlope(LastFit(a, spb, h))) <==> Intercept(LastFit(a, spb, h)) == 0.0
    ensures BestWithoutStartup(1.0 - a, h, OriginSlope(LastFit(a, spb, h)))
  {
    var fit := LastFit(a, spb, h);
    MeanSlopeIsBestIff(fit);
    hide LastFit, MeanSlope, OriginSlope, Intercept, Spread, SquaredResidual, Faded;
    forall x: real
      ensures Faded(1.0 - a, h, SquaredResidual(0.0, OriginSlope(fit))) <= Faded(1.0 - a, h, SquaredResidual(0.0, x))
    {
      OriginSlopeIsLeast(a, spb, h, x);
    }
    OriginSlopeIsLeast(a, spb, h, MeanSlope(fit));
  }

  /** So whenever the pin is taken, some other line without a startup fits the history strictly better than the belief. */
  lemma PinnedBeliefIsNotBest(a: Alpha, spb: real, h: seq<Sample>)
    requires h != [] && Pins(LastFit(a, spb, h))
    ensures var l := After(a, spb, h);
            && l.startup == 0.0 && ThroughMean(l)
            && !BestWithoutStartup(1.0 - a, h, l.secondsPerByte)
  {
    LastFitKeepsSums(a, spb, h);
    var fit := LastFit(a, spb, h);
    DivideMultiply(fit.meanSeconds, fit.meanBytes);
    hide LastFit, After, BestWithoutStartup, Spread, Slope;
    PinnedFitIsBestIffUnpinned(a, spb, h);
  }

  /** A history whose second transfer takes the pin: 1 byte in 1 second, then 2.5 bytes in 4. */
  lemma PinHappens(spb: real)
    ensures var h := [Sample(1.0, 1.0), Sample(2.5, 4.0)];
            Pins(LastFit(0.5, spb, h)) && After(0.5, spb, h).secondsPerByte == 1.5
  {
    var h := [Sample(1.0, 1.0), Sample(2.5, 4.0)];
    var first := LastFit(0.5, spb, h[..1]);
    assert h[..1][..0] == [] && h[..1] == [Sample(1.0, 1.0)];
    LastFitKeepsSums(0.5, spb, h[..1]);
    LastFitKeepsSums(0.5, spb, h);
    assert first == Fields(1.0, 1.0, 1.0, 0.0, 0.0, 0.0, spb);
    var fit := LastFit(0.5, spb, h);
    assert fit.weight == 1.5 && fit.meanBytes == 2.0 && fit.meanSeconds == 3.0 && fit.bytesVar == 0.75 && fit.bytesSecondsCov == 1.5;
    assert Slope(fit) == 2.0;
  }

  // ---------------------------------------------------------------------------
  // A belief is always usable
  // ---------------------------------------------------------------------------

  /** What a caller may rely on: no negative startup, a positive cost per byte. */
  ghost predicate Usable(l: Line) {
    l.startup >= 0.0 && l.secondsPerByte > 0.0
  }

  /** The believed line passes through the mean of what was observed. */
  ghost predicate ThroughMean(l: Line) {
    l.startup + l.secondsPerByte * l.meanBytes == l.meanSeconds
  }

  ghost predicate Timed(h: seq<Sample>) {
    forall i :: 0 <= i < |h| ==> h[i].seconds > 0.0
  }

  lemma RefitIsUsable(l: Fitted)
    requires l.startup >= 0.0 && l.meanSeconds > 0.0
    ensures var r := Refit(l);
            Usable(r) && ThroughMean(r)
  {
    hide Mul, Spread, Slope;
    DividePositive(l.meanSeconds, l.meanBytes);
    var startup := if l.startup >= l.meanSeconds then 0.0 else l.startup;
    DividePositive(l.meanSeconds - startup, l.meanBytes);
  }

  /** Over every history of positive sizes and times, the belief stays usable and passes through the mean point. */
  lemma {:induction false} BeliefStaysUsable(a: Alpha, spb: real, h: seq<Sample>)
    requires spb > 0.0 && Timed(h)
    ensures var l := After(a, spb, h);
            && Usable(l)
            && l.meanSeconds >= 0.0
            && (h != [] ==> l.weight >= 1.0 && l.meanBytes > 0.0 && l.meanSeconds > 0.0 && ThroughMean(l))
  {
    hide Fade, Shift, Deviate, Mul, Refit, ThroughMean;
    if h != [] {
      var before, last := h[..|h| - 1], h[|h| - 1];
      BeliefStaysUsable(a, spb, before);
      AfterStep(a, spb, h);
      var l := After(a, spb, before);
      FadeGrows(1.0 - a, l.weight);
      ShiftPositive(l.meanSeconds, last.seconds, Fade(1.0 - a, l.weight, 1.0));
      hide After;
      var r := Accumulate(a, l, last.bytes, last.seconds);
      RefitIsUsable(r);
      RefitKeepsSums(r);
    }
  }

  // ---------------------------------------------------------------------------
  // Points on one line
  // ---------------------------------------------------------------------------

  ghost predicate OnLine(h: seq<Sample>, startup: real, slope: real) {
    forall i :: 0 <= i < |h| ==> h[i].seconds == startup + slope * h[i].bytes
  }

  /** Some observation so far found enough spread to fit a line. */
  ghost predicate SpreadSeen(a: Alpha, spb: real, h: seq<Sample>) {
    h != [] && (SpreadSeen(a, spb, h[..|h| - 1]) || (Observed(After(a, spb, h)) && Spread(After(a, spb, h))))
  }

  ghost predicate OnOneLine(m: Moments, s: real, b: real) {
    Collinear(s, b, m.n, m.x, m.y, m.xx, m.xy)
  }

  lemma {:induction false} LineMoments(d: real, h: seq<Sample>, s: real, b: real)
    requires OnLine(h, s, b)
    ensures OnOneLine(RawMoments(d, h), s, b)
  {
    if h != [] {
      var before, p := h[..|h| - 1], h[|h| - 1];
      LineMoments(d, before, s, b);
      var m := RawMoments(d, before);
      assert p.seconds == s + b * p.bytes;
      CollinearStep(d, s, b, m.n, m.x, m.y, m.xx, m.xy, p.bytes, p.seconds);
      hide Fade, Collinear, Mul;
    }
  }

  /** On a line, the fields are on it too: the mean point, and the covariance as a multiple of the variance. */
  lemma FieldsOnLine(m: Moments, l: Fitted, s: real, b: real)
    requires Matches(m, l) && OnOneLine(m, s, b)
    ensures l.meanSeconds == s + b * l.meanBytes
    ensures Spread(l) ==> Slope(l) == b && Intercept(l) == s
  {
    CentredOnLine(s, b, m.n, m.x, m.y, m.xx, m.xy,
                  l.weight, l.meanBytes, l.meanSeconds, l.bytesVar, l.bytesSecondsCov);
    if Spread(l) {
      SpreadMeansVariance(l);
      SameQuotient(Slope(l), b, l.bytesVar);
      hide Spread, Centred, Collinear;
    }
  }

  /**
   If every transfer so far took s + b * bytes, the learner believes exactly that
   from the first observation with enough spread on, however the sizes go from
   there; before it, no startup and the cost of the mean point.
   */
  lemma {:induction false} ExactLineIsFoundAndKept(a: Alpha, spb: real, h: seq<Sample>, s: real, b: real)
    requires OnLine(h, s, b) && s >= 0.0 && b > 0.0
    ensures var l := After(a, spb, h);
            && (SpreadSeen(a, spb, h) ==> l.startup == s && l.secondsPerByte == b)
            && (!SpreadSeen(a, spb, h) ==> l.startup == 0.0)
            && (!SpreadSeen(a, spb, h) && h != [] ==> l.secondsPerByte == l.meanSeconds / l.meanBytes)
  {
    if h != [] {
      var before, last := h[..|h| - 1], h[|h| - 1];
      ExactLineIsFoundAndKept(a, spb, before, s, b);
      AfterStep(a, spb, h);
      AfterMatches(a, spb, before);
      var was := After(a, spb, before);
      var l := Accumulate(a, was, last.bytes, last.seconds);
      AccumulateMatches(a, RawMoments(1.0 - a, before), was, last);
      LineMoments(1.0 - a, h, s, b);
      assert RawMoments(1.0 - a, h) == RawMoments(1.0 - a, before).Plus(1.0 - a, last);
      assert l.startup == was.startup;
      RefitKeepsSums(l);
      hide After, Accumulate, Refit, RawMoments, Mul, Matches, OnOneLine;
      FieldsOnLine(RawMoments(1.0 - a, before).Plus(1.0 - a, last), l, s, b);
      RefitOnLine(l, s, b);
      assert SpreadSeen(a, spb, h) <==> SpreadSeen(a, spb, before) || Spread(l);
    }
  }

  lemma RefitOnLine(l: Fitted, s: real, b: real)
    requires s >= 0.0 && b > 0.0
    requires l.meanSeconds == s + b * l.meanBytes
    requires Spread(l) ==> Slope(l) == b && Intercept(l) == s
    ensures var r := Refit(l);
            && (Spread(l) || l.startup == s ==> r.startup == s && r.secondsPerByte == b)
            && (!Spread(l) && l.startup == 0.0 ==> r.startup == 0.0 && r.secondsPerByte == r.meanSeconds / r.meanBytes)
  {
    hide Mul, Spread, Slope, Intercept;
    MulPositive(b, l.meanBytes);
    MultiplyDivide(b, l.meanBytes);
  }

  // ---------------------------------------------------------------------------
  // What the loops read: predictions of the belief
  // ---------------------------------------------------------------------------

  /** How far a belief's prediction is from what a transfer took, squared. */
  ghost function PredictionError<L>(b: Beliefs<L>, l: L): Sample -> real {
    (p: Sample) => Sq(p.seconds - b.Predict(l, p.bytes))
  }

  lemma PredictsItsLine(a: Alpha, l: Line, bytes: real)
    ensures LineBeliefs(a).Predict(l, bytes) == l.startup + bytes * l.secondsPerByte
  {
    hide Observe;
  }

  /** Until something is observed, a transfer is predicted to take its bytes at the initial cost, with no startup. */
  lemma {:induction false} PredictsInitialCost(a: Alpha, spb: real, bytes: real)
    ensures LineBeliefs(a).Predict(After(a, spb, []), bytes) == bytes * spb
  {
    PredictsItsLine(a, Fresh(spb), bytes);
  }

  /** A belief whose line passes through the mean predicts it. */
  lemma PredictsMeanOfLine(a: Alpha, l: Line)
    requires ThroughMean(l)
    ensures LineBeliefs(a).Predict(l, l.meanBytes) == l.meanSeconds
  {
    PredictsItsLine(a, l, l.meanBytes);
    assert l.secondsPerByte * l.meanBytes == l.meanBytes * l.secondsPerByte;
    hide LineBeliefs;
  }

  /** After any history of positive times, the mean transfer is predicted to take the mean time. */
  lemma PredictsTheMean(a: Alpha, spb: real, h: seq<Sample>)
    requires spb > 0.0 && Timed(h) && h != []
    ensures var l := After(a, spb, h);
            LineBeliefs(a).Predict(l, l.meanBytes) == l.meanSeconds
  {
    hide After, Timed, ThroughMean, LineBeliefs, Beliefs.Predict;
    BeliefStaysUsable(a, spb, h);
    PredictsMeanOfLine(a, After(a, spb, h));
  }

  /** After transfers on one line and one observation with enough spread, every size is predicted exactly. */
  lemma {:induction false} PredictsTheExactLine(a: Alpha, spb: real, h: seq<Sample>, s: real, b: real, bytes: real)
    requires OnLine(h, s, b) && s >= 0.0 && b > 0.0 && SpreadSeen(a, spb, h)
    ensures LineBeliefs(a).Predict(After(a, spb, h), bytes) == s + b * bytes
  {
    hide After, OnLine, SpreadSeen;
    ExactLineIsFoundAndKept(a, spb, h, s, b);
    PredictsItsLine(a, After(a, spb, h), bytes);
  }

  lemma ErrorIsResidual(a: Alpha, l: Line, p: Sample)
    ensures PredictionError(LineBeliefs(a), l)(p) == SquaredResidual(l.startup, l.secondsPerByte)(p)
  {
    PredictsItsLine(a, l, p.bytes);
    assert p.seconds - LineBeliefs(a).Predict(l, p.bytes) == p.seconds - l.startup - l.secondsPerByte * p.bytes;
    hide LineBeliefs, Beliefs.Predict;
  }

  /** Whenever the fit is accepted, no line predicts the whole history with less faded squared error than the belief does. */
  lemma AcceptedPredictionsAreBest(a: Alpha, spb: real, h: seq<Sample>, startup: real, slope: real)
    requires h != [] && Accepts(LastFit(a, spb, h))
    ensures Faded(1.0 - a, h, PredictionError(LineBeliefs(a), After(a, spb, h))) <= Faded(1.0 - a, h, SquaredResidual(startup, slope))
  {
    var l := After(a, spb, h);
    var f, g := PredictionError(LineBeliefs(a), l), SquaredResidual(l.startup, l.secondsPerByte);
    hide After, LastFit, Accepts, Mul;
    forall p: Sample
      ensures f(p) == g(p)
    {
      ErrorIsResidual(a, l, p);
    }
    hide Residual, PredictionError, SquaredResidual;
    FadedToSame(1.0 - a, h, f, g, |h|);
    AcceptedFitIsLeastSquares(a, spb, h, startup, slope);
  }

  /**
   With too little spread, or a fitted line that falls, the belief keeps its startup
   unless the mean transfer is no longer than that, and passes through the mean.
   */
  lemma UnfittedBeliefKeepsStartup(a: Alpha, spb: real, h: seq<Sample>)
    requires h != []
    requires var fit := LastFit(a, spb, h); !Spread(fit) || Slope(fit) <= 0.0
    ensures var was, l := After(a, spb, h[..|h| - 1]), After(a, spb, h);
            && l.startup == (if was.startup < l.meanSeconds then was.startup else 0.0)
            && LineBeliefs(a).Predict(l, l.meanBytes) == l.meanSeconds
  {
    LastFitKeepsSums(a, spb, h);
    LastFitKeepsStartup(a, spb, h);
    hide LastFit, After;
    UnfittedRefit(LastFit(a, spb, h));
    hide Refit, ThroughMean, LineBeliefs, Spread, Slope;
    PredictsMeanOfLine(a, After(a, spb, h));
  }

  lemma LastFitKeepsStartup(a: Alpha, spb: real, h: seq<Sample>)
    requires h != []
    ensures LastFit(a, spb, h).startup == After(a, spb, h[..|h| - 1]).startup
  {
    hide After;
  }

  lemma UnfittedRefit(l: Fitted)
    requires !Spread(l) || Slope(l) <= 0.0
    ensures var r := Refit(l);
            ThroughMean(r) && r.startup == if l.startup < l.meanSeconds then l.startup else 0.0
  {
    hide Spread, Slope;
    var startup := if l.startup >= l.meanSeconds then 0.0 else l.startup;
    DivideMultiply(l.meanSeconds - startup, l.meanBytes);
  }
}

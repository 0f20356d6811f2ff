/**
 The two learners without a startup term: the moving average of
 internal/learner/ewma.go and the last rate of internal/learner/lastsample.go.
 */
module RateLearners {
  import opened Learning
  import opened Reals
  import opened Sums
  import opened LineFit

  /** What one transfer alone says a byte costs. */
  function Rate(bytes: Positive, seconds: real): real {
    seconds / bytes
  }

  function EwmaObserve(a: Alpha, spb: real, bytes: Positive, seconds: real): real {
    (1.0 - a) * spb + a * seconds / bytes
  }

  function EwmaBeliefs(a: Alpha): Beliefs<real> {
    Beliefs(
      (spb: real, bytes: Positive, seconds: real) => EwmaObserve(a, spb, bytes, seconds),
      (spb: real) => 0.0,
      (spb: real) => spb)
  }

  function LastSampleBeliefs(): Beliefs<real> {
    Beliefs(
      (spb: real, bytes: Positive, seconds: real) => Rate(bytes, seconds),
      (spb: real) => 0.0,
      (spb: real) => spb)
  }

  class Ewma {
    const alpha: Alpha
    var secondsPerByte: real

    constructor (alpha: Alpha, secondsPerByte: real)
      ensures this.alpha == alpha && this.secondsPerByte == secondsPerByte
    {
      this.alpha := alpha;
      this.secondsPerByte := secondsPerByte;
    }

    /** The gap between the belief and what this transfer showed shrinks to the share 1 - alpha. */
    method Observe(bytes: Positive, seconds: real)
      modifies this
      ensures secondsPerByte == EwmaBeliefs(alpha).observe(old(secondsPerByte), bytes, seconds)
      ensures secondsPerByte - Rate(bytes, seconds) == (1.0 - alpha) * (old(secondsPerByte) - Rate(bytes, seconds))
    {
      EwmaIsFade(alpha, secondsPerByte, bytes, seconds);
      secondsPerByte := (1.0 - alpha) * secondsPerByte + alpha * seconds / bytes;
    }
  }

  class LastSample {
    var secondsPerByte: real

    constructor (secondsPerByte: real)
      ensures this.secondsPerByte == secondsPerByte
    {
      this.secondsPerByte := secondsPerByte;
    }

    /** The new belief accounts for this transfer exactly. */
    method Observe(bytes: Positive, seconds: real)
      modifies this
      ensures secondsPerByte == LastSampleBeliefs().observe(old(secondsPerByte), bytes, seconds)
      ensures secondsPerByte * bytes == seconds
    {
      DivideMultiply(seconds, bytes);
      secondsPerByte := seconds / bytes;
    }
  }

  /** What one transfer adds to the belief. */
  function Share(a: Alpha, bytes: Positive, seconds: real): real {
    a * Rate(bytes, seconds)
  }

  /** One observation moves the belief the share alpha of the way to the observed rate. */
  lemma EwmaIsFade(a: Alpha, spb: real, bytes: Positive, seconds: real)
    ensures EwmaObserve(a, spb, bytes, seconds) == Fade(1.0 - a, spb, Share(a, bytes, seconds))
    ensures EwmaObserve(a, spb, bytes, seconds) - Rate(bytes, seconds) == Mul(1.0 - a, spb - Rate(bytes, seconds))
  {
    QuotientIsUnique(a * (seconds / bytes), a * seconds, bytes) by {
      DivideMultiply(seconds, bytes);
    }
  }

  /** LastSample is EWMA with alpha 1, whatever it believed before. */
  lemma {:induction false} LastSampleIsEwma(spb: real, h: seq<Sample>)
    ensures LastSampleBeliefs().Taught(spb, h) == EwmaBeliefs(1.0).Taught(spb, h)
    ensures h != [] ==> LastSampleBeliefs().Taught(spb, h) == Rate(h[|h| - 1].bytes, h[|h| - 1].seconds)
  {
    if h != [] {
      LastSampleIsEwma(spb, h[..|h| - 1]);
      EwmaIsFade(1.0, LastSampleBeliefs().Taught(spb, h[..|h| - 1]), h[|h| - 1].bytes, h[|h| - 1].seconds);
    }
  }

  /** After any transfer, LastSample predicts that a transfer of that size takes as long again, and others in proportion. */
  lemma {:induction false} LastSamplePredicts(spb: real, h: seq<Sample>, bytes: real)
    requires h != []
    ensures var last := h[|h| - 1];
            LastSampleBeliefs().Predict(LastSampleBeliefs().Taught(spb, h), bytes) * last.bytes == bytes * last.seconds
  {
    var last := h[|h| - 1];
    LastSampleIsEwma(spb, h);
    DivideMultiply(last.seconds, last.bytes);
    Proportional(bytes, Rate(last.bytes, last.seconds), last.bytes, last.seconds);
  }

  lemma Proportional(x: real, rate: real, y: real, z: real)
    requires rate * y == z
    ensures (0.0 + x * rate) * y == x * z
  {
  }

  /** EWMA predicts in proportion to the size, with no startup. */
  lemma EwmaPredicts(a: Alpha, spb: real, bytes: real)
    ensures EwmaBeliefs(a).Predict(spb, bytes) == bytes * spb
  {
  }

  ghost function Rates(a: Alpha): Sample -> real {
    (p: Sample) => Share(a, p.bytes, p.seconds)
  }

  /** The belief after a history: the initial belief, faded once per transfer, and the faded sum of the rates seen. */
  lemma {:induction false} EwmaIsFadedAverage(a: Alpha, spb: real, h: seq<Sample>)
    ensures EwmaBeliefs(a).Taught(spb, h) == Mul(Pow(1.0 - a, |h|), spb) + Faded(1.0 - a, h, Rates(a))
  {
    hide Fade, Mul, EwmaObserve, Share;
    if h == [] {
      NoRates(a, spb);
    } else {
      var before, last := h[..|h| - 1], h[|h| - 1];
      EwmaIsFadedAverage(a, spb, before);
      assert EwmaBeliefs(a).Taught(spb, h) == EwmaObserve(a, EwmaBeliefs(a).Taught(spb, before), last.bytes, last.seconds);
      EwmaIsFade(a, EwmaBeliefs(a).Taught(spb, before), last.bytes, last.seconds);
      FadedStep(1.0 - a, h, Rates(a));
      PowStep(1.0 - a, |before|);
      hide Faded, Pow, Beliefs.Taught;
      FadePower(1.0 - a, Pow(1.0 - a, |before|), Pow(1.0 - a, |h|), spb, Faded(1.0 - a, before, Rates(a)), Share(a, last.bytes, last.seconds));
    }
  }

  lemma {:induction false} NoRates(a: Alpha, spb: real)
    ensures EwmaBeliefs(a).Taught(spb, []) == Mul(Pow(1.0 - a, 0), spb) + Faded(1.0 - a, [], Rates(a))
  {
    hide EwmaObserve;
  }

  lemma FadePower(d: real, p: real, p': real, spb: real, sum: real, term: real)
    requires p' == d * p
    ensures Fade(d, Mul(p, spb) + sum, term) == Mul(p', spb) + Fade(d, sum, term)
  {
  }

  /** Positive times keep the belief positive. */
  lemma {:induction false} EwmaStaysPositive(a: Alpha, spb: real, h: seq<Sample>)
    requires spb > 0.0 && Timed(h)
    ensures EwmaBeliefs(a).Taught(spb, h) > 0.0
  {
    if h != [] {
      var before, last := h[..|h| - 1], h[|h| - 1];
      EwmaStaysPositive(a, spb, before);
      DividePositive(last.seconds, last.bytes);
      EwmaIsFade(a, EwmaBeliefs(a).Taught(spb, before), last.bytes, last.seconds);
      MixPositive(a, EwmaBeliefs(a).Taught(spb, before), Rate(last.bytes, last.seconds));
      hide Fade;
    }
  }

  lemma MixPositive(a: Alpha, x: real, y: real)
    requires x > 0.0 && y > 0.0
    ensures Fade(1.0 - a, x, a * y) > 0.0
  {
    MulNonNegative(1.0 - a, x);
    MulPositive(a, y);
  }

  /** Transfers that all show the same rate close the gap to it by the same factor each time. */
  lemma {:induction false} EwmaContracts(a: Alpha, spb: real, h: seq<Sample>, rate: real)
    requires forall i :: 0 <= i < |h| ==> Rate(h[i].bytes, h[i].seconds) == rate
    ensures EwmaBeliefs(a).Taught(spb, h) - rate == Mul(Pow(1.0 - a, |h|), spb - rate)
  {
    hide Mul, EwmaObserve, Rate;
    if h == [] {
      MulOne(spb - rate);
    } else {
      var before, last := h[..|h| - 1], h[|h| - 1];
      EwmaContracts(a, spb, before, rate);
      EwmaIsFade(a, EwmaBeliefs(a).Taught(spb, before), last.bytes, last.seconds);
      FadeOnce(1.0 - a, Pow(1.0 - a, |before|), Pow(1.0 - a, |h|), spb - rate);
    }
  }

  lemma MulOne(x: real)
    ensures Mul(1.0, x) == x
  {
  }

  lemma FadeOnce(d: real, p: real, p': real, x: real)
    requires p' == d * p
    ensures Mul(d, Mul(p, x)) == Mul(p', x)
  {
  }
}

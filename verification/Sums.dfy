/**
 Sums over a history of transfers in which every newer transfer fades the older
 ones by the same factor: the closed forms the learners are proved against.
 */
module Sums {
  import opened Learning
  import opened Reals

  function Pow(d: real, n: nat): real {
    if n == 0 then 1.0 else d * Pow(d, n - 1)
  }

  /** The sum over the first k transfers of d^(n-1-i) * f(transfer i), where n is the length of the history. */
  ghost function FadedTo(d: real, h: seq<Sample>, f: Sample -> real, k: nat): real
    requires k <= |h|
  {
    if k == 0 then 0.0 else FadedTo(d, h, f, k - 1) + Pow(d, |h| - k) * f(h[k - 1])
  }

  ghost function Faded(d: real, h: seq<Sample>, f: Sample -> real): real {
    FadedTo(d, h, f, |h|)
  }

  lemma {:induction false} FadedToShifts(d: real, h: seq<Sample>, f: Sample -> real, k: nat)
    requires k < |h|
    ensures FadedTo(d, h, f, k) == d * FadedTo(d, h[..|h| - 1], f, k)
  {
    if k > 0 {
      FadedToShifts(d, h, f, k - 1);
      assert h[..|h| - 1][k - 1] == h[k - 1];
      PowStep(d, |h| - 1 - k);
      hide Pow;
      ScaledTerm(d, FadedTo(d, h[..|h| - 1], f, k - 1), Pow(d, |h| - 1 - k), Pow(d, |h| - k), f(h[k - 1]));
    }
  }

  lemma PowStep(d: real, n: nat)
    ensures Pow(d, n + 1) == d * Pow(d, n)
  {
  }

  lemma ScaledTerm(d: real, sum: real, p: real, p': real, term: real)
    requires p' == d * p
    ensures d * (sum + p * term) == d * sum + p' * term
  {
  }

  /** One more transfer fades the sum so far and adds its own term at full weight. */
  lemma FadedStep(d: real, h: seq<Sample>, f: Sample -> real)
    requires h != []
    ensures Faded(d, h, f) == Fade(d, Faded(d, h[..|h| - 1], f), f(h[|h| - 1]))
  {
    FadedToShifts(d, h, f, |h| - 1);
  }

  /** A quadratic in the two coordinates of a transfer. */
  datatype Quadratic = Quadratic(c: real, x: real, y: real, xx: real, xy: real, yy: real) {
    ghost function At(p: Sample): real {
      QuadraticAt(c, x, y, xx, xy, yy, p.bytes, p.seconds)
    }
  }

  /** The six raw sums of a history. */
  datatype Moments = Moments(n: real, x: real, y: real, xx: real, xy: real, yy: real) {
    ghost function Dot(q: Quadratic): real {
      Combine(q.c, q.x, q.y, q.xx, q.xy, q.yy, n, x, y, xx, xy, yy)
    }

    /** The same sums once p has joined the history. */
    ghost function Plus(d: real, p: Sample): Moments {
      Moments(Fade(d, n, 1.0), Fade(d, x, p.bytes), Fade(d, y, p.seconds),
              Fade(d, xx, Mul(p.bytes, p.bytes)), Fade(d, xy, Mul(p.bytes, p.seconds)), Fade(d, yy, Mul(p.seconds, p.seconds)))
    }

    lemma PlusDot(d: real, p: Sample, q: Quadratic)
      ensures Plus(d, p).Dot(q) == Fade(d, Dot(q), q.At(p))
    {
      hide Fade, Mul, Combine;
      CombineFades(d, q.c, q.x, q.y, q.xx, q.xy, q.yy, n, x, y, xx, xy, yy,
                   1.0, p.bytes, p.seconds, Mul(p.bytes, p.bytes), Mul(p.bytes, p.seconds), Mul(p.seconds, p.seconds));
    }
  }

  ghost function RawMoments(d: real, h: seq<Sample>): Moments {
    if h == [] then Moments(0.0, 0.0, 0.0, 0.0, 0.0, 0.0)
    else RawMoments(d, h[..|h| - 1]).Plus(d, h[|h| - 1])
  }

  /** The faded sum of any quadratic is read off the raw sums. */
  lemma {:induction false} FadedQuadratic(d: real, h: seq<Sample>, f: Sample -> real, q: Quadratic)
    requires forall p :: f(p) == q.At(p)
    ensures Faded(d, h, f) == RawMoments(d, h).Dot(q)
  {
    hide Fade, Mul, Faded;
    if h == [] {
      NoTerms(d, h, f, q);
    } else {
      FadedQuadratic(d, h[..|h| - 1], f, q);
      FadedStep(d, h, f);
      RawMoments(d, h[..|h| - 1]).PlusDot(d, h[|h| - 1], q);
    }
  }

  lemma {:induction false} NoTerms(d: real, h: seq<Sample>, f: Sample -> real, q: Quadratic)
    requires h == []
    ensures Faded(d, h, f) == RawMoments(d, h).Dot(q) == 0.0
  {
  }

  /** Sums of terms that agree on every transfer agree. */
  lemma {:induction false} FadedToSame(d: real, h: seq<Sample>, f: Sample -> real, g: Sample -> real, k: nat)
    requires k <= |h| && forall p :: f(p) == g(p)
    ensures FadedTo(d, h, f, k) == FadedTo(d, h, g, k)
  {
    hide Pow;
    if k > 0 {
      FadedToSame(d, h, f, g, k - 1);
    }
  }
}

/**
 What RunAdaptive guarantees over whole runs (internal/simulator/simulator.go):
 the regret of every decision is bounded by the error of the belief behind it, a
 usable learner never stops a run, probing recovers a wrong EWMA belief within a
 computable number of requests, and without probing a wrong belief is final.
 */
module Adaptive {
  import opened Results
  import opened Scheduler
  import opened CostModel
  import opened Learning
  import opened Reals
  import opened Sums
  import opened LineFit
  import opened RateLearners
  import opened Simulator

  // ---------------------------------------------------------------------------
  // One request of a run
  // ---------------------------------------------------------------------------

  lemma {:induction false} RunPrefix<L>(
    b: Beliefs<L>, probeEvery: int, observe: int -> real -> real, truths: seq<Scenario>, l: L, k: nat, n: nat)
    requires k <= n <= |truths|
    requires RunTo(b, probeEvery, observe, truths, l, n).stopped.None?
    ensures var s, t := RunTo(b, probeEvery, observe, truths, l, k), RunTo(b, probeEvery, observe, truths, l, n);
            s.stopped.None? && |t.outcomes| == n && s.outcomes == t.outcomes[..k]
  {
    hide Record, Lowest, Candidates, Belief;
    if n > 0 {
      var s := RunTo(b, probeEvery, observe, truths, l, n - 1);
      if k < n {
        RunPrefix(b, probeEvery, observe, truths, l, k, n - 1);
      } else {
        RunPrefix(b, probeEvery, observe, truths, l, n - 1, n - 1);
      }
    }
  }

  /** What the learner's belief makes of a request, and what is true of it. */
  ghost function Believed<L>(b: Beliefs<L>, l: L, truth: Scenario): Inputs {
    Belief(b, l, truth).Inputs(b.startup(l))
  }

  ghost function True(truth: Scenario): Inputs {
    truth.Inputs(truth.transferStartup)
  }

  /** One request, with the choice and the score spelled out. */
  lemma RequestServed<L>(b: Beliefs<L>, probeEvery: int, report: real -> real, truth: Scenario, s: RunState<L>)
    requires s.stopped.None?
    ensures var t := ServeRequest(b, probeEvery, report, truth, s);
            var i, j := Believed(b, s.loop.learner, truth), True(truth);
            && (t.stopped.None? <==> i.Valid() && j.Valid())
            && (t.stopped.None? ==>
                  var action := if Probes(probeEvery, s.loop.sinceTransfer) then Action.Transfer else Cheapest(i);
                  && t.outcomes == s.outcomes + [Outcome(
                       TtftUnder(j, action) - TtftUnder(j, Cheapest(j)), Cheapest(i), action, TtftUnder(i, action), TtftUnder(j, action))]
                  && t.loop == if action != Action.Transfer then Loop(s.loop.sinceTransfer + 1, s.loop.learner)
                               else if truth.Bytes() > 0.0 then
                                 Loop(0, b.observe(s.loop.learner, truth.Bytes(), report(TransferDuration(truth))))
                               else Loop(0, s.loop.learner))
  {
    var belief, startup := Belief(b, s.loop.learner, truth), b.startup(s.loop.learner);
    var i := Believed(b, s.loop.learner, truth);
    LowestOfThree(belief, startup);
    if i.Valid() {
      var action := if Probes(probeEvery, s.loop.sinceTransfer) then Action.Transfer else Cheapest(i);
      RecordIsSound(belief, startup, truth, Cheapest(i), action);
    }
    hide Record, Lowest, EstimateFor, TtftUnder, Cheapest;
  }

  lemma CheapestIsLeast(i: Inputs, action: Action)
    requires i.Valid() && !action.Other?
    ensures TtftUnder(i, Cheapest(i)) <= TtftUnder(i, action)
  {
    hide Inputs.WaitTTFT, Inputs.TransferTTFT, Inputs.RecomputeTTFT;
  }

  lemma CheapestIsAPlan(i: Inputs)
    requires i.Valid()
    ensures !Cheapest(i).Other?
  {
    hide Inputs.WaitTTFT, Inputs.TransferTTFT, Inputs.RecomputeTTFT;
  }

  /** Dividing by a believed bandwidth of 1 / secondsPerByte is multiplying by secondsPerByte. */
  lemma BelievedTime<L>(b: Beliefs<L>, l: L, truth: Scenario)
    requires Believed(b, l, truth).Valid()
    ensures b.secondsPerByte(l) > 0.0
    ensures Believed(b, l, truth).TransferTime() == b.Predict(l, truth.Bytes())
  {
    var spb := b.secondsPerByte(l);
    PositiveInverse(spb);
    DivideByInverse(truth.Bytes(), spb);
  }

  lemma TrueTime(truth: Scenario)
    requires True(truth).Valid()
    ensures truth.bandwidthBytesPerSec > 0.0
    ensures True(truth).TransferTime() == TransferDuration(truth)
  {
  }

  lemma SameRequest<L>(b: Beliefs<L>, l: L, truth: Scenario)
    ensures SameButNetwork(Believed(b, l, truth), True(truth))
    ensures True(truth).Valid() ==> truth.bandwidthBytesPerSec > 0.0
  {
  }

  lemma PositiveInverse(x: real)
    requires x != 0.0
    ensures 1.0 / x > 0.0 <==> x > 0.0
  {
    DivideMultiply(1.0, x);
    if x < 0.0 {
      DividePositive(1.0, -x);
      QuotientIsUnique(-(1.0 / -x), 1.0, x);
    } else {
      DividePositive(1.0, x);
    }
  }

  lemma DivideByInverse(x: real, y: real)
    requires y > 0.0
    ensures x / (1.0 / y) == x * y
  {
    DividePositive(1.0, y);
    assert x * y * (1.0 / y) == x;
    QuotientIsUnique(x * y, x, 1.0 / y);
  }

  // ---------------------------------------------------------------------------
  // Regret
  // ---------------------------------------------------------------------------

  /**
   Every decision is off by no more than its belief. Regret is never negative; a
   request that no probe forced regrets at most the error in the predicted TTFT of
   a transfer, which is at most the error in the predicted transfer time.
   */
  lemma {:induction false} RegretIsBounded<L>(
    b: Beliefs<L>, probeEvery: int, observe: int -> real -> real, truths: seq<Scenario>, l: L, k: nat, n: nat)
    requires k < n <= |truths|
    requires RunTo(b, probeEvery, observe, truths, l, n).stopped.None?
    ensures |RunTo(b, probeEvery, observe, truths, l, n).outcomes| == n
    ensures True(truths[k]).Valid() && Believed(b, RunTo(b, probeEvery, observe, truths, l, k).loop.learner, truths[k]).Valid()
    ensures var outcome := RunTo(b, probeEvery, observe, truths, l, n).outcomes[k];
            var loop := RunTo(b, probeEvery, observe, truths, l, k).loop;
            var i, j := Believed(b, loop.learner, truths[k]), True(truths[k]);
            && outcome.regret >= 0.0
            && (!Probes(probeEvery, loop.sinceTransfer) ==>
                  && outcome.executed == outcome.believed
                  && outcome.regret <= Abs(i.TransferTTFT() - j.TransferTTFT())
                  && Abs(i.TransferTTFT() - j.TransferTTFT())
                     <= Abs(b.Predict(loop.learner, truths[k].Bytes()) - TransferDuration(truths[k])))
  {
    hide ServeRequest, Inputs.WaitTTFT, Inputs.TransferTTFT, Inputs.RecomputeTTFT, Inputs.TransferTime, Inputs.Valid;
    hide TransferDuration, TtftUnder, Cheapest, Believed, True, Scenario.Bytes, Beliefs.Predict, SameButNetwork;
    var s := RunTo(b, probeEvery, observe, truths, l, k);
    RunPrefix(b, probeEvery, observe, truths, l, k, n);
    RunPrefix(b, probeEvery, observe, truths, l, k + 1, n);
    assert RunTo(b, probeEvery, observe, truths, l, k + 1) == ServeRequest(b, probeEvery, observe(k), truths[k], s);
    RequestServed(b, probeEvery, observe(k), truths[k], s);
    var i, j := Believed(b, s.loop.learner, truths[k]), True(truths[k]);
    SameRequest(b, s.loop.learner, truths[k]);
    CheapestIsAPlan(i);
    CheapestIsLeast(j, RunTo(b, probeEvery, observe, truths, l, n).outcomes[k].executed);
    BelievedTime(b, s.loop.learner, truths[k]);
    TransferErrorBounded(i, j);
    ChoiceErrorBounded(i, j);
    TrueTime(truths[k]);
  }

  /** Choosing by inputs that misjudge only the transfer costs at most that misjudgement. */
  lemma ChoiceErrorBounded(i: Inputs, j: Inputs)
    requires i.Valid() && j.Valid()
    requires i.WaitTTFT() == j.WaitTTFT() && i.RecomputeTTFT() == j.RecomputeTTFT()
    ensures TtftUnder(j, Cheapest(i)) - TtftUnder(j, Cheapest(j)) <= Abs(i.TransferTTFT() - j.TransferTTFT())
  {
    hide Inputs.WaitTTFT, Inputs.TransferTTFT, Inputs.RecomputeTTFT, Inputs.Valid;
  }

  /** A learner that is right about every transfer regrets nothing but its probes. */
  lemma {:induction false} ExactBeliefHasNoRegret<L>(
    b: Beliefs<L>, probeEvery: int, observe: int -> real -> real, truths: seq<Scenario>, l: L, k: nat, n: nat)
    requires k < n <= |truths|
    requires RunTo(b, probeEvery, observe, truths, l, n).stopped.None?
    requires truths[k].bandwidthBytesPerSec > 0.0
    requires var loop := RunTo(b, probeEvery, observe, truths, l, k).loop;
             && b.Predict(loop.learner, truths[k].Bytes()) == TransferDuration(truths[k])
             && !Probes(probeEvery, loop.sinceTransfer)
    ensures |RunTo(b, probeEvery, observe, truths, l, n).outcomes| == n
    ensures RunTo(b, probeEvery, observe, truths, l, n).outcomes[k].regret == 0.0
  {
    hide RunTo, Beliefs.Predict, TransferDuration, Believed, True, Inputs.TransferTTFT, Inputs.Valid;
    RegretIsBounded(b, probeEvery, observe, truths, l, k, n);
  }

  // ---------------------------------------------------------------------------
  // A usable learner never stops a run
  // ---------------------------------------------------------------------------

  /** What the run taught: one sample per executed transfer of a non-empty prefix. */
  ghost function History(truths: seq<Scenario>, observe: int -> real -> real, outcomes: seq<Outcome>): seq<Sample>
    requires |outcomes| <= |truths|
    requires forall i :: 0 <= i < |truths| ==> truths[i].bandwidthBytesPerSec > 0.0
  {
    if outcomes == [] then []
    else
      var k := |outcomes| - 1;
      History(truths, observe, outcomes[..k]) +
      if outcomes[k].executed == Action.Transfer && truths[k].Bytes() > 0.0
      then [Sample(truths[k].Bytes(), observe(k)(TransferDuration(truths[k])))] else []
  }

  lemma {:induction false} HistoryStep(truths: seq<Scenario>, observe: int -> real -> real, outcomes: seq<Outcome>, o: Outcome)
    requires |outcomes| < |truths|
    requires forall i :: 0 <= i < |truths| ==> truths[i].bandwidthBytesPerSec > 0.0
    ensures var k := |outcomes|;
            History(truths, observe, outcomes + [o]) ==
            if o.executed == Action.Transfer && truths[k].Bytes() > 0.0
            then History(truths, observe, outcomes) + [Sample(truths[k].Bytes(), observe(k)(TransferDuration(truths[k])))]
            else History(truths, observe, outcomes)
  {
    assert (outcomes + [o])[..|outcomes|] == outcomes;
  }

  ghost predicate SoundTruths(truths: seq<Scenario>) {
    forall i :: 0 <= i < |truths| ==> truths[i].Sound() && truths[i].bandwidthBytesPerSec > 0.0
  }

  ghost predicate PositiveReports(observe: int -> real -> real) {
    forall i: int, x: real :: x > 0.0 ==> observe(i)(x) > 0.0
  }

  /** Whatever transfers of positive sizes and times it is shown, the learner's belief can be priced. */
  ghost predicate AlwaysUsable<L>(b: Beliefs<L>, l: L) {
    forall h :: Timed(h) ==> b.startup(b.Taught(l, h)) >= 0.0 && b.secondsPerByte(b.Taught(l, h)) > 0.0
  }

  lemma {:induction false} UsableAfter<L>(b: Beliefs<L>, l: L, h: seq<Sample>)
    requires AlwaysUsable(b, l) && Timed(h)
    ensures b.startup(b.Taught(l, h)) >= 0.0 && b.secondsPerByte(b.Taught(l, h)) > 0.0
  {
  }

  lemma {:induction false} NothingTaught<L>(b: Beliefs<L>, l: L)
    ensures b.Taught(l, []) == l
  {
  }

  lemma SoundDuration(truth: Scenario)
    requires truth.Sound()
    ensures truth.Bytes() > 0.0 ==> TransferDuration(truth) > 0.0
  {
    if truth.Bytes() > 0.0 {
      DividePositive(truth.Bytes(), truth.bandwidthBytesPerSec);
    }
  }

  lemma SoundTruth(truth: Scenario)
    requires truth.Sound()
    ensures True(truth).Valid() && truth.bandwidthBytesPerSec > 0.0
  {
  }

  lemma UsableIsPriced<L>(b: Beliefs<L>, l: L, truth: Scenario)
    requires truth.Sound() && b.startup(l) >= 0.0 && b.secondsPerByte(l) > 0.0
    ensures Believed(b, l, truth).Valid()
  {
    PositiveInverse(b.secondsPerByte(l));
  }

  /** The run finishes every request, and its learner is exactly what its transfers taught. */
  lemma {:induction false} RunNeverStops<L>(
    b: Beliefs<L>, probeEvery: int, observe: int -> real -> real, truths: seq<Scenario>, l: L, n: nat)
    requires n <= |truths| && SoundTruths(truths) && PositiveReports(observe) && AlwaysUsable(b, l)
    ensures var s := RunTo(b, probeEvery, observe, truths, l, n);
            && s.stopped.None? && |s.outcomes| == n
            && s.loop.learner == b.Taught(l, History(truths, observe, s.outcomes))
            && Timed(History(truths, observe, s.outcomes))
  {
    hide ServeRequest, TransferDuration, TtftUnder, Cheapest, Believed, Scenario.Bytes, Scenario.Inputs, Inputs.Valid;
    hide AlwaysUsable, Beliefs.Taught, True;
    if n == 0 {
      NothingTaught(b, l);
    } else {
      RunNeverStops(b, probeEvery, observe, truths, l, n - 1);
      var s := RunTo(b, probeEvery, observe, truths, l, n - 1);
      assert RunTo(b, probeEvery, observe, truths, l, n) == ServeRequest(b, probeEvery, observe(n - 1), truths[n - 1], s);
      hide RunTo;
      UsableRequestServed(b, probeEvery, observe, truths, l, n - 1, s);
    }
  }

  /** One request of a run whose learner is what the requests before it taught, and stays so. */
  lemma {:induction false} UsableRequestServed<L>(
    b: Beliefs<L>, probeEvery: int, observe: int -> real -> real, truths: seq<Scenario>, l: L, i: nat, s: RunState<L>)
    requires i < |truths| && SoundTruths(truths) && PositiveReports(observe) && AlwaysUsable(b, l)
    requires s.stopped.None? && |s.outcomes| == i
    requires s.loop.learner == b.Taught(l, History(truths, observe, s.outcomes)) && Timed(History(truths, observe, s.outcomes))
    ensures var t := ServeRequest(b, probeEvery, observe(i), truths[i], s);
            && t.stopped.None? && |t.outcomes| == i + 1
            && t.loop.learner == b.Taught(l, History(truths, observe, t.outcomes))
            && Timed(History(truths, observe, t.outcomes))
  {
    hide ServeRequest, TransferDuration, TtftUnder, Cheapest, Believed, True, Scenario.Bytes, Scenario.Inputs, Inputs.Valid;
    hide AlwaysUsable, Beliefs.Taught;
    var truth := truths[i];
    var h := History(truths, observe, s.outcomes);
    SoundTruth(truth);
    UsableAfter(b, l, h);
    UsableIsPriced(b, s.loop.learner, truth);
    RequestServed(b, probeEvery, observe(i), truth, s);
    SoundDuration(truth);
    HistoryStep(truths, observe, s.outcomes, ServeRequest(b, probeEvery, observe(i), truth, s).outcomes[i]);
    hide History;
    if truth.Bytes() > 0.0 {
      b.TaughtOneMore(l, h, Sample(truth.Bytes(), observe(i)(TransferDuration(truth))));
    }
  }

  /** The line learner and the moving average are always usable. */
  lemma LineIsAlwaysUsable(a: Alpha, spb: real)
    requires spb > 0.0
    ensures AlwaysUsable(LineBeliefs(a), Fresh(spb))
  {
    forall h | Timed(h)
      ensures var l := LineBeliefs(a).Taught(Fresh(spb), h);
              LineBeliefs(a).startup(l) >= 0.0 && LineBeliefs(a).secondsPerByte(l) > 0.0
    {
      BeliefStaysUsable(a, spb, h);
      hide Observe;
    }
  }

  lemma EwmaIsAlwaysUsable(a: Alpha, spb: real)
    requires spb > 0.0
    ensures AlwaysUsable(EwmaBeliefs(a), spb)
  {
    forall h | Timed(h)
      ensures var l := EwmaBeliefs(a).Taught(spb, h);
              EwmaBeliefs(a).startup(l) >= 0.0 && EwmaBeliefs(a).secondsPerByte(l) > 0.0
    {
      EwmaStaysPositive(a, spb, h);
    }
  }

  // ---------------------------------------------------------------------------
  // Recovery by probing, and none without it
  // ---------------------------------------------------------------------------

  ghost function Exactly(): int -> real -> real {
    (i: int) => (seconds: real) => seconds
  }

  /** The network is steady, and every request is the same. */
  ghost predicate Steady(truths: seq<Scenario>, truth: Scenario) {
    forall i :: 0 <= i < |truths| ==> truths[i] == truth
  }

  ghost function Transfers(outcomes: seq<Outcome>): nat {
    if outcomes == [] then 0
    else Transfers(outcomes[..|outcomes| - 1]) + if outcomes[|outcomes| - 1].executed == Action.Transfer then 1 else 0
  }

  /** With probing on, at least one request in every probeEvery + 1 transfers. */
  lemma {:induction false} ProbesHappen<L>(
    b: Beliefs<L>, probeEvery: int, observe: int -> real -> real, truths: seq<Scenario>, l: L, n: nat)
    requires n <= |truths| && probeEvery > 0
    requires RunTo(b, probeEvery, observe, truths, l, n).stopped.None?
    ensures var s := RunTo(b, probeEvery, observe, truths, l, n);
            && 0 <= s.loop.sinceTransfer <= probeEvery
            && n <= (probeEvery + 1) * Transfers(s.outcomes) + s.loop.sinceTransfer
  {
    hide ServeRequest, TransferDuration, TtftUnder, Cheapest, Believed, True, Scenario.Bytes, Inputs.Valid;
    if n > 0 {
      RunPrefix(b, probeEvery, observe, truths, l, n - 1, n);
      ProbesHappen(b, probeEvery, observe, truths, l, n - 1);
      var s := RunTo(b, probeEvery, observe, truths, l, n - 1);
      RequestServed(b, probeEvery, observe(n - 1), truths[n - 1], s);
      var t := RunTo(b, probeEvery, observe, truths, l, n);
      assert t.outcomes[..n - 1] == s.outcomes;
      if t.outcomes[n - 1].executed == Action.Transfer {
        OneMoreTransfer(probeEvery + 1, Transfers(s.outcomes));
      }
    }
  }

  lemma OneMoreTransfer(p: int, k: int)
    ensures p * (k + 1) == p * k + p
  {
  }

  /** Bernoulli: n fades by 1 - a leave no more than 1 / (1 + n * a). */
  lemma {:induction false} PowBound(a: Alpha, n: nat)
    ensures Pow(1.0 - a, n) >= 0.0
    ensures Mul(Pow(1.0 - a, n), 1.0 + n as real * a) <= 1.0
  {
    if n > 0 {
      PowBound(a, n - 1);
      var p := Pow(1.0 - a, n - 1);
      MulNonNegative(1.0 - a, p);
      BernoulliStep(a, p, (n - 1) as real);
      assert (n - 1) as real + 1.0 == n as real;
    }
  }

  lemma BernoulliStep(a: Alpha, p: real, m: real)
    requires p >= 0.0 && m >= 0.0
    ensures Mul((1.0 - a) * p, 1.0 + (m + 1.0) * a) <= Mul(p, 1.0 + m * a)
  {
    var aa := a * a;
    MulNonNegative(a, a);
    MulNonNegative(m, aa);
    MulNonNegative(p, m * aa + aa);
    assert (1.0 - a) * (1.0 + (m + 1.0) * a) == 1.0 + m * a - (m * aa + aa);
    assert Mul((1.0 - a) * p, 1.0 + (m + 1.0) * a) == p * ((1.0 - a) * (1.0 + (m + 1.0) * a));
    Distribute(p, 1.0 + m * a, m * aa + aa);
  }

  lemma {:induction false} PowShrinks(a: Alpha, m: nat, n: nat)
    requires m <= n
    ensures 0.0 <= Pow(1.0 - a, n) <= Pow(1.0 - a, m)
    decreases n
  {
    PowBound(a, n);
    if m < n {
      PowShrinks(a, m, n - 1);
      MulNonNegative(a, Pow(1.0 - a, n - 1));
      Distribute(Pow(1.0 - a, n - 1), 1.0, a);
    }
  }

  /** What n fades by 1 - a leave of a gap is less than the margin. */
  ghost predicate FadesBelow(a: Alpha, gap: real, margin: real, n: nat) {
    Mul(Pow(1.0 - a, n), gap) < margin
  }

  /** A gap that has faded below the margin stays below it. */
  lemma GapStaysClosed(a: Alpha, gap: real, margin: real, enough: nat, n: nat)
    requires margin > 0.0 && enough <= n
    requires FadesBelow(a, gap, margin, enough)
    ensures FadesBelow(a, gap, margin, n)
  {
    PowShrinks(a, enough, n);
    SmallerShare(Pow(1.0 - a, n), Pow(1.0 - a, enough), gap, margin);
    hide Mul, Pow;
  }

  lemma SmallerShare(p: real, q: real, gap: real, margin: real)
    requires 0.0 <= p <= q && margin > 0.0 && Mul(q, gap) < margin
    ensures Mul(p, gap) < margin
  {
    if gap <= 0.0 {
      MulNonNegative(p, -gap);
      assert p * -gap == -(p * gap);
    } else {
      MulNonNegative(q - p, gap);
      assert (q - p) * gap == q * gap - p * gap;
    }
  }

  /** After enough fades, what is left of a gap is below any margin. */
  lemma GapCloses(a: Alpha, gap: real, margin: real, enough: nat)
    requires margin > 0.0
    requires gap < margin * (1.0 + enough as real * a)
    ensures FadesBelow(a, gap, margin, enough)
  {
    var p, grown := Pow(1.0 - a, enough), 1.0 + enough as real * a;
    PowBound(a, enough);
    if gap <= 0.0 {
      MulNonNegative(p, -gap);
      assert p * -gap == -(p * gap);
    } else {
      MulNonNegative(enough as real, a);
      FadedGap(p, gap, margin, grown);
    }
  }

  /** There always is such a number of fades. */
  lemma GapAlwaysCloses(a: Alpha, gap: real, margin: real) returns (enough: nat)
    requires margin > 0.0
    ensures FadesBelow(a, gap, margin, enough)
  {
    MulPositive(margin, a);
    var q := gap / (margin * a);
    DivideMultiply(gap, margin * a);
    enough := if q < 0.0 then 0 else q.Floor + 1;
    LinearGap(a, gap, margin, q, enough as real);
    GapCloses(a, gap, margin, enough);
  }

  lemma LinearGap(a: Alpha, gap: real, margin: real, q: real, enough: real)
    requires margin > 0.0 && q * (margin * a) == gap && enough >= q
    ensures gap < margin * (1.0 + enough * a)
  {
    MulPositive(margin, a);
    MulNonNegative(enough - q, margin * a);
    assert margin * (1.0 + enough * a) == margin + q * (margin * a) + (enough - q) * (margin * a);
  }

  lemma FadedGap(p: real, gap: real, margin: real, grown: real)
    requires p >= 0.0 && gap > 0.0 && grown > 0.0
    requires Mul(p, grown) <= 1.0 && gap < margin * grown
    ensures Mul(p, gap) < margin
  {
    MulNonNegative(gap, 1.0 - p * grown);
    assert p * gap * grown == gap * (p * grown);
    assert p * gap * grown <= gap;
    assert (margin - p * gap) * grown > 0.0;
    MultiplyDivide(margin - p * gap, grown);
    DividePositive((margin - p * gap) * grown, grown);
  }

  /** How far the cheapest other plan is above a transfer, in truth. */
  ghost function Margin(truth: Scenario): real
    requires truth.Sound()
  {
    var j := True(truth);
    (if j.WaitTTFT() <= j.RecomputeTTFT() then j.WaitTTFT() else j.RecomputeTTFT()) - j.TransferTTFT()
  }

  /** How much too long the initial belief takes a transfer to be. */
  ghost function Gap(truth: Scenario, spb: real): real
    requires truth.Sound()
  {
    truth.Bytes() * spb - TransferDuration(truth)
  }

  /** A prediction within the margin of the truth still finds that transfer is best. */
  lemma WithinMargin<L>(b: Beliefs<L>, l: L, truth: Scenario)
    requires truth.Sound() && Believed(b, l, truth).Valid() && Margin(truth) > 0.0
    requires b.Predict(l, truth.Bytes()) - TransferDuration(truth) < Margin(truth)
    ensures Cheapest(Believed(b, l, truth)) == Action.Transfer
  {
    hide Inputs.WaitTTFT, Inputs.TransferTTFT, Inputs.RecomputeTTFT, Inputs.TransferTime, TransferDuration, Inputs.Valid;
    hide Believed, True, Scenario.Bytes, Scenario.Inputs, Beliefs.Predict, SameButNetwork;
    var i, j := Believed(b, l, truth), True(truth);
    SoundTruth(truth);
    BelievedTime(b, l, truth);
    SameRequest(b, l, truth);
    TransferErrorBounded(i, j);
    TrueTime(truth);
    LateTransfer(i, j);
  }

  lemma LateTransfer(i: Inputs, j: Inputs)
    requires i.Valid() && j.Valid() && SameButNetwork(i, j)
    ensures i.TransferTime() <= j.TransferTime() ==> i.TransferTTFT() <= j.TransferTTFT()
    ensures i.TransferTime() >= j.TransferTime() ==> i.TransferTTFT() - j.TransferTTFT() <= i.TransferTime() - j.TransferTime()
  {
    hide Inputs.TransferTime;
  }

  /** On a steady network with exact reports, every sample of the history shows the same rate. */
  lemma {:induction false} SteadyHistory(truths: seq<Scenario>, truth: Scenario, outcomes: seq<Outcome>)
    requires |outcomes| <= |truths| && Steady(truths, truth) && SoundTruths(truths) && truth.Bytes() > 0.0
    requires truth.bandwidthBytesPerSec > 0.0
    ensures var h := History(truths, Exactly(), outcomes);
            && |h| == Transfers(outcomes)
            && forall i :: 0 <= i < |h| ==> Rate(h[i].bytes, h[i].seconds) == Rate(truth.Bytes(), TransferDuration(truth))
  {
    hide TransferDuration, Rate;
    if outcomes != [] {
      SteadyHistory(truths, truth, outcomes[..|outcomes| - 1]);
    }
  }

  /** What the moving average still gets wrong about a transfer, after n transfers at the true rate. */
  lemma {:induction false} EwmaGap(a: Alpha, spb: real, h: seq<Sample>, bytes: Positive, duration: real, gap: real)
    requires gap == bytes * spb - duration
    requires forall i :: 0 <= i < |h| ==> Rate(h[i].bytes, h[i].seconds) == Rate(bytes, duration)
    ensures EwmaBeliefs(a).Predict(EwmaBeliefs(a).Taught(spb, h), bytes) - duration ==
            Mul(Pow(1.0 - a, |h|), gap)
  {
    hide EwmaObserve, Mul, Pow;
    var rate := Rate(bytes, duration);
    EwmaContracts(a, spb, h, rate);
    DivideMultiply(duration, bytes);
    ScaledGap(bytes, EwmaBeliefs(a).Taught(spb, h), rate, Pow(1.0 - a, |h|), spb, duration, gap);
  }

  lemma ScaledGap(bytes: real, belief: real, rate: real, p: real, spb: real, duration: real, gap: real)
    requires belief - rate == Mul(p, spb - rate) && rate * bytes == duration
    requires gap == bytes * spb - duration
    ensures bytes * belief - duration == Mul(p, gap)
  {
    assert bytes * (belief - rate) == p * (bytes * spb - bytes * rate);
  }

  /** Transfer is truly cheapest when the margin is positive. */
  lemma TransferIsCheapest(truth: Scenario)
    requires truth.Sound() && Margin(truth) > 0.0
    ensures True(truth).Valid() && Cheapest(True(truth)) == Action.Transfer
  {
    hide Inputs.WaitTTFT, Inputs.TransferTTFT, Inputs.RecomputeTTFT, Inputs.Valid, Scenario.Inputs;
  }

  /**
   Recovery. On a steady network where a transfer is best by some margin, a probing
   EWMA run believes so, transfers and regrets nothing at every request from
   (probeEvery + 1) * enough on, where `enough` transfers fade the initial gap
   below the margin.
   */
  lemma {:induction false} ProbingRecovers(
    a: Alpha, spb: real, probeEvery: int, truths: seq<Scenario>, truth: Scenario, enough: nat, k: nat)
    requires Steady(truths, truth) && truth.Sound() && truth.Bytes() > 0.0
    requires spb > 0.0 && probeEvery > 0
    requires Margin(truth) > 0.0
    requires FadesBelow(a, Gap(truth, spb), Margin(truth), enough)
    requires (probeEvery + 1) * enough <= k < |truths|
    ensures var s := RunTo(EwmaBeliefs(a), probeEvery, Exactly(), truths, spb, |truths|);
            && s.stopped.None? && |s.outcomes| == |truths|
            && s.outcomes[k].believed == Action.Transfer && s.outcomes[k].executed == Action.Transfer && s.outcomes[k].regret == 0.0
  {
    var b, n := EwmaBeliefs(a), |truths|;
    hide ServeRequest, TransferDuration, TtftUnder, Cheapest, Believed, True, Scenario.Bytes, Scenario.Inputs, Inputs.Valid;
    hide AlwaysUsable, Margin, EwmaObserve, FadesBelow, Gap;
    SoundTruth(truth);
    TransferIsCheapest(truth);
    EwmaIsAlwaysUsable(a, spb);
    RunNeverStops(b, probeEvery, Exactly(), truths, spb, n);
    RunPrefix(b, probeEvery, Exactly(), truths, spb, k, n);
    RunPrefix(b, probeEvery, Exactly(), truths, spb, k + 1, n);
    var s := RunTo(b, probeEvery, Exactly(), truths, spb, k);
    BeliefHasRecovered(a, spb, probeEvery, truths, truth, enough, k);
    RequestServed(b, probeEvery, Exactly()(k), truth, s);
  }

  /** Such a number of transfers always exists; one that outgrows the gap linearly will do. */
  lemma RecoveryIsCertain(a: Alpha, truth: Scenario, spb: real)
    requires truth.Sound() && Margin(truth) > 0.0
    ensures exists enough: nat :: FadesBelow(a, Gap(truth, spb), Margin(truth), enough)
    ensures forall enough: nat :: Gap(truth, spb) < Margin(truth) * (1.0 + enough as real * a) ==>
              FadesBelow(a, Gap(truth, spb), Margin(truth), enough)
  {
    hide FadesBelow, Gap, Margin;
    var some := GapAlwaysCloses(a, Gap(truth, spb), Margin(truth));
    forall enough: nat | Gap(truth, spb) < Margin(truth) * (1.0 + enough as real * a)
      ensures FadesBelow(a, Gap(truth, spb), Margin(truth), enough)
    {
      GapCloses(a, Gap(truth, spb), Margin(truth), enough);
    }
  }

  /** By then, the run has taught at least `enough` samples, all of the true rate. */
  lemma TaughtEnough(a: Alpha, spb: real, probeEvery: int, truths: seq<Scenario>, truth: Scenario, enough: nat, k: nat) returns (h: seq<Sample>)
    requires Steady(truths, truth) && truth.Sound() && truth.Bytes() > 0.0
    requires truth.bandwidthBytesPerSec > 0.0
    requires spb > 0.0 && probeEvery > 0
    requires (probeEvery + 1) * enough <= k < |truths|
    ensures RunTo(EwmaBeliefs(a), probeEvery, Exactly(), truths, spb, k).loop.learner == EwmaBeliefs(a).Taught(spb, h)
    ensures Timed(h) && |h| >= enough
    ensures forall i :: 0 <= i < |h| ==> Rate(h[i].bytes, h[i].seconds) == Rate(truth.Bytes(), TransferDuration(truth))
  {
    var b := EwmaBeliefs(a);
    var s := RunTo(b, probeEvery, Exactly(), truths, spb, k);
    hide RunTo, TransferDuration, Scenario.Bytes, Scenario.Inputs, Inputs.Valid;
    hide AlwaysUsable, EwmaObserve, Mul, Rate, Beliefs.Predict, Beliefs.Taught;
    EwmaIsAlwaysUsable(a, spb);
    RunNeverStops(b, probeEvery, Exactly(), truths, spb, k);
    ProbesHappen(b, probeEvery, Exactly(), truths, spb, k);
    h := History(truths, Exactly(), s.outcomes);
    SteadyHistory(truths, truth, s.outcomes);
    hide History, Transfers, Steady;
    EnoughTransfers(probeEvery + 1, Transfers(s.outcomes), enough, s.loop.sinceTransfer, k);
  }

  /** A learner taught that many such samples believes transfer. */
  lemma {:induction false} TaughtBelieves(a: Alpha, spb: real, truth: Scenario, h: seq<Sample>, enough: nat)
    requires truth.Sound() && truth.Bytes() > 0.0 && truth.bandwidthBytesPerSec > 0.0
    requires spb > 0.0 && Timed(h) && |h| >= enough
    requires forall i :: 0 <= i < |h| ==> Rate(h[i].bytes, h[i].seconds) == Rate(truth.Bytes(), TransferDuration(truth))
    requires Margin(truth) > 0.0 && FadesBelow(a, Gap(truth, spb), Margin(truth), enough)
    ensures var i := Believed(EwmaBeliefs(a), EwmaBeliefs(a).Taught(spb, h), truth);
            i.Valid() && Cheapest(i) == Action.Transfer
  {
    var b := EwmaBeliefs(a);
    hide TransferDuration, Cheapest, Believed, Scenario.Bytes, Scenario.Inputs, Inputs.Valid;
    hide Margin, EwmaObserve, Mul, Pow, Rate, Beliefs.Predict, Beliefs.Taught;
    EwmaGap(a, spb, h, truth.Bytes(), TransferDuration(truth), Gap(truth, spb));
    hide Gap;
    GapStaysClosed(a, Gap(truth, spb), Margin(truth), enough, |h|);
    EwmaStaysPositive(a, spb, h);
    UsableIsPriced(b, b.Taught(spb, h), truth);
    WithinMargin(b, b.Taught(spb, h), truth);
  }

  lemma {:induction false} BeliefHasRecovered(
    a: Alpha, spb: real, probeEvery: int, truths: seq<Scenario>, truth: Scenario, enough: nat, k: nat)
    requires Steady(truths, truth) && truth.Sound() && truth.Bytes() > 0.0
    requires truth.bandwidthBytesPerSec > 0.0
    requires spb > 0.0 && probeEvery > 0
    requires Margin(truth) > 0.0 && FadesBelow(a, Gap(truth, spb), Margin(truth), enough)
    requires (probeEvery + 1) * enough <= k < |truths|
    ensures var l := RunTo(EwmaBeliefs(a), probeEvery, Exactly(), truths, spb, k).loop.learner;
            Believed(EwmaBeliefs(a), l, truth).Valid() && Cheapest(Believed(EwmaBeliefs(a), l, truth)) == Action.Transfer
  {
    hide RunTo, TransferDuration, Cheapest, Believed, Scenario.Bytes, Scenario.Inputs, Inputs.Valid;
    hide Margin, EwmaBeliefs, FadesBelow, Gap, Rate, Beliefs.Taught;
    var h := TaughtEnough(a, spb, probeEvery, truths, truth, enough, k);
    TaughtBelieves(a, spb, truth, h, enough);
  }

  lemma EnoughTransfers(p: int, transfers: int, enough: int, since: int, k: int)
    requires p >= 1 && since < p
    requires p * enough <= k <= p * transfers + since
    ensures transfers >= enough
  {
    var d := enough - transfers;
    assert p * d <= since < p;
    if d >= 1 {
      IntProduct(p, d);
    }
  }

  lemma IntProduct(p: int, d: int)
    requires p >= 1 && d >= 1
    ensures p * d >= p
  {
  }

  /** Without probes, a learner of any kind that prefers another plan keeps that preference on a steady network. */
  lemma {:induction false} NoProbesNoRecovery<L>(
    b: Beliefs<L>, observe: int -> real -> real, truths: seq<Scenario>, truth: Scenario, l: L, k: nat, j: nat, n: nat)
    requires Steady(truths, truth) && k <= j < n <= |truths|
    requires RunTo(b, 0, observe, truths, l, n).stopped.None?
    requires |RunTo(b, 0, observe, truths, l, n).outcomes| == n
    requires RunTo(b, 0, observe, truths, l, n).outcomes[k].believed != Action.Transfer
    ensures var outcomes := RunTo(b, 0, observe, truths, l, n).outcomes;
            && outcomes[j].believed == outcomes[k].believed
            && RunTo(b, 0, observe, truths, l, j).loop.learner == RunTo(b, 0, observe, truths, l, k).loop.learner
  {
    hide ServeRequest, TransferDuration, TtftUnder, Cheapest, Believed, True, Scenario.Bytes, Inputs.Valid;
    RunPrefix(b, 0, observe, truths, l, j, n);
    RunPrefix(b, 0, observe, truths, l, j + 1, n);
    RequestServed(b, 0, observe(j), truths[j], RunTo(b, 0, observe, truths, l, j));
    if k < j {
      NoProbesNoRecovery(b, observe, truths, truth, l, k, j - 1, n);
      RunPrefix(b, 0, observe, truths, l, j - 1, n);
      RequestServed(b, 0, observe(j - 1), truths[j - 1], RunTo(b, 0, observe, truths, l, j - 1));
      RunPrefix(b, 0, observe, truths, l, k, n);
      RunPrefix(b, 0, observe, truths, l, k + 1, n);
      RequestServed(b, 0, observe(k), truths[k], RunTo(b, 0, observe, truths, l, k));
    }
  }

  // ---------------------------------------------------------------------------
  // RunStatic
  // ---------------------------------------------------------------------------

  /** A learner that never learns: a bandwidth measured once. */
  function Frozen(bandwidth: real): Beliefs<()> {
    Beliefs(
      (l: (), bytes: Positive, seconds: real) => l,
      (l: ()) => 0.0,
      (l: ()) => Bandwidth(bandwidth))
  }

  /** RunStatic is RunAdaptive with a learner that never learns and no probes. */
  method RunStatic(bandwidth: real, truths: seq<Scenario>) returns (r: Result<seq<Outcome>, SimError>)
    ensures var s := RunTo(Frozen(bandwidth), 0, Exactly(), truths, (), |truths|);
            r == if s.stopped.Some? then Err(s.stopped.value) else Ok(s.outcomes)
  {
    hide EstimateFor, Record, TransferDuration, Scenario.Bytes, Bandwidth;
    var outcomes: seq<Outcome> := [];
    FrozenBandwidth(bandwidth);
    ghost var b := Frozen(bandwidth);
    for i := 0 to |truths|
      invariant var s := RunTo(b, 0, Exactly(), truths, (), i);
                s.outcomes == outcomes && s.stopped.None?
    {
      var truth := truths[i];
      var belief := truth.(bandwidthBytesPerSec := bandwidth);
      ghost var s := RunTo(b, 0, Exactly(), truths, (), i);
      assert ServeRequest(b, 0, Exactly()(i), truth, s) == RunTo(b, 0, Exactly(), truths, (), i + 1);
      var choice := Decide(belief);
      if choice.Err? {
        StopsForGood(b, 0, Exactly(), truths, (), i + 1, |truths|);
        return Err(choice.error);
      }
      var outcome := Record(belief, 0.0, truth, choice.value.action, choice.value.action);
      if outcome.Err? {
        StopsForGood(b, 0, Exactly(), truths, (), i + 1, |truths|);
        return Err(outcome.error);
      }
      outcomes := outcomes + [outcome.value];
    }
    return Ok(outcomes);
  }

  /** What RunStatic believes: no startup, and a time that the frozen bandwidth fills exactly. */
  lemma StaticPrediction(bandwidth: real, bytes: real)
    requires bandwidth > 0.0
    ensures Frozen(bandwidth).Predict((), bytes) * bandwidth == bytes
    ensures Frozen(bandwidth).Predict((), 0.0) == 0.0
  {
    DivideMultiply(1.0, bandwidth);
    Unscale(bytes, 1.0 / bandwidth, bandwidth);
  }

  lemma Unscale(x: real, y: real, z: real)
    requires y * z == 1.0
    ensures (0.0 + x * y) * z == x
  {
  }

  lemma FrozenBandwidth(bandwidth: real)
    ensures Bandwidth(Frozen(bandwidth).secondsPerByte(())) == bandwidth
  {
    if bandwidth != 0.0 {
      DivideMultiply(1.0, bandwidth);
      QuotientIsUnique(bandwidth, 1.0, 1.0 / bandwidth);
    }
  }
}

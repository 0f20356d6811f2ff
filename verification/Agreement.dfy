/**
 The controller's loop against the simulator's (internal/controller/controller.go,
 internal/simulator/simulator.go): over the same requests, with a worker that
 reports what the simulation would, they agree throughout a run exactly if every
 transfer is of a positive whole number of bytes.
 */
module Agreement {
  import opened Results
  import opened Scheduler
  import opened CostModel
  import opened Learning
  import opened Reals
  import opened LineFit
  import opened RateLearners
  import opened Simulator
  import opened Controller
  import opened Adaptive
  import opened ControllerRuns

  /** The prefix is a positive, whole number of bytes. */
  predicate WholePrefix(s: Scenario) {
    PrefixBytes(s) > 0 && PrefixBytes(s) as real == s.Bytes()
  }

  /** The worker always succeeds and reports what the simulation would. */
  ghost predicate Faithful(w: World, observe: int -> real -> real, truths: seq<Scenario>) {
    forall i :: 0 <= i < |truths| ==>
      && !w.ctxEndsBefore(i)
      && truths[i].bandwidthBytesPerSec > 0.0
      && w.reply(i) == Replied(observe(i)(TransferDuration(truths[i])))
  }

  ghost predicate SameChoices(results: seq<RunResult>, outcomes: seq<Outcome>) {
    && |results| == |outcomes|
    && forall k :: 0 <= k < |results| ==>
         results[k].believed == outcomes[k].believed && results[k].action == outcomes[k].executed
  }

  /** What a finished request taught the controller's learner, and the simulator's. */
  function TaughtByRun(r: RunResult, s: Scenario): Option<Sample> {
    if r.action == Action.Transfer && PrefixBytes(s) > 0 && r.err.None?
    then Some(Sample(PrefixBytes(s) as real, r.seconds)) else None
  }

  ghost function TaughtBySimulator(o: Outcome, truth: Scenario, report: real -> real): Option<Sample>
    requires truth.bandwidthBytesPerSec > 0.0
  {
    if o.executed == Action.Transfer && truth.Bytes() > 0.0
    then Some(Sample(truth.Bytes(), report(TransferDuration(truth)))) else None
  }

  /**
   One request from agreeing states. Both loops believe and do the same; the probe
   counts stay equal if and only if the request is not a transfer or has a byte to
   send, and the counts and the lesson both do if and only if it is not a transfer
   or its prefix is a positive whole number of bytes.
   */
  lemma OneRequestAgreesIff<L>(
    b: Beliefs<L>, probeEvery: int, w: World, report: real -> real, i: int, truth: Scenario, c: Log<L>, s: Simulator.RunState<L>)
    requires c.stopped.None? && s.stopped.None? && truth.Sound() && truth.bandwidthBytesPerSec > 0.0
    requires !w.ctxEndsBefore(i) && w.reply(i) == Replied(report(TransferDuration(truth)))
    requires !c.control.down && c.control.sinceTransfer >= 0 && s.loop == Loop(c.control.sinceTransfer, c.control.learner)
    ensures var c', s' := Serve(b, probeEvery, w, i, truth, c), ServeRequest(b, probeEvery, report, truth, s);
            && (c'.stopped.Some? <==> s'.stopped.Some?)
            && (c'.stopped.Some? ==> c'.results == c.results && c'.control == c.control && s'.outcomes == s.outcomes && s'.loop == s.loop)
            && (c'.stopped.None? ==>
                  && |c'.results| == |c.results| + 1 && |s'.outcomes| == |s.outcomes| + 1
                  && var r, o := c'.results[|c.results|], s'.outcomes[|s.outcomes|];
                  && c'.results == c.results + [r] && s'.outcomes == s.outcomes + [o]
                  && r.believed == o.believed && r.action == o.executed && r.err.None? && !c'.control.down
                  && (c'.control.sinceTransfer == s'.loop.sinceTransfer <==> r.action != Action.Transfer || PrefixBytes(truth) > 0)
                  && (c'.control.sinceTransfer == s'.loop.sinceTransfer && TaughtByRun(r, truth) == TaughtBySimulator(o, truth, report)
                      <==> r.action != Action.Transfer || WholePrefix(truth))
                  && (r.action != Action.Transfer || WholePrefix(truth) ==> c'.control.learner == s'.loop.learner))
  {
    SoundTruth(truth);
    ServeCases(b, probeEvery, w, i, truth, c);
    RequestServed(b, probeEvery, report, truth, s);
    StoppedKeepsOutcomes(b, probeEvery, report, truth, s);
    hide Serve, ServeRequest, PrefixBytes, Cheapest, Believed, True, Beliefs.Predict, Scenario.Bytes, Scenario.Inputs, Inputs.Valid, TtftUnder, TransferDuration;
  }

  /** The two loops have believed, done, counted and learnt the same, or have both stopped. */
  ghost predicate Agree<L>(c: Log<L>, s: Simulator.RunState<L>, truths: seq<Scenario>, observe: int -> real -> real)
    requires SoundTruths(truths)
  {
    && (c.stopped.Some? <==> s.stopped.Some?)
    && |c.results| <= |truths| && SameChoices(c.results, s.outcomes)
    && !c.control.down
    && s.loop == Loop(c.control.sinceTransfer, c.control.learner)
    && Successes(c.results, truths) == History(truths, observe, s.outcomes)
  }

  ghost predicate InStep<L>(b: Beliefs<L>, probeEvery: int, w: World, observe: int -> real -> real, truths: seq<Scenario>, l: L, k: nat)
    requires k <= |truths| && SoundTruths(truths)
  {
    Agree(LogTo(b, probeEvery, w, truths, l, k), RunTo(b, probeEvery, observe, truths, l, k), truths, observe)
  }

  function Listed(p: Option<Sample>): seq<Sample> {
    if p.Some? then [p.value] else []
  }

  /** Two equal histories with one lesson more each are equal exactly if the lessons are. */
  lemma SameLesson(h: seq<Sample>, p: Option<Sample>, q: Option<Sample>)
    ensures h + Listed(p) == h + Listed(q) <==> p == q
  {
    if h + Listed(p) == h + Listed(q) {
      assert |Listed(p)| == |Listed(q)|;
      if p.Some? {
        assert (h + Listed(p))[|h|] == (h + Listed(q))[|h|];
      }
    }
  }

  lemma AgreeAfterOneMore<L>(
    c: Log<L>, s: Simulator.RunState<L>, c': Log<L>, s': Simulator.RunState<L>, truths: seq<Scenario>, observe: int -> real -> real,
    r: RunResult, o: Outcome)
    requires SoundTruths(truths) && |c.results| < |truths| && Agree(c, s, truths, observe)
    requires c'.stopped.None? && s'.stopped.None? && c'.results == c.results + [r] && s'.outcomes == s.outcomes + [o]
    requires r.believed == o.believed && r.action == o.executed && r.err.None? && !c'.control.down
    ensures var k := |c.results|;
            Agree(c', s', truths, observe) <==>
            && s'.loop == Loop(c'.control.sinceTransfer, c'.control.learner)
            && TaughtByRun(r, truths[k]) == TaughtBySimulator(o, truths[k], observe(k))
  {
    hide TaughtByRun, TaughtBySimulator, Successes, History, Scenario.Sound;
    var k := |c.results|;
    LessonOfRun(c.results, truths, r);
    LessonOfSimulator(truths, observe, s.outcomes, o);
    SameLesson(Successes(c.results, truths), TaughtByRun(r, truths[k]), TaughtBySimulator(o, truths[k], observe(k)));
    hide Listed;
    SameChoicesOneMore(c.results, s.outcomes, r, o);
    hide SameChoices;
  }

  lemma SameChoicesOneMore(results: seq<RunResult>, outcomes: seq<Outcome>, r: RunResult, o: Outcome)
    requires SameChoices(results, outcomes) && r.believed == o.believed && r.action == o.executed
    ensures SameChoices(results + [r], outcomes + [o])
  {
  }

  lemma {:induction false} LessonOfRun(results: seq<RunResult>, scenarios: seq<Scenario>, r: RunResult)
    requires |results| < |scenarios|
    ensures Successes(results + [r], scenarios) == Successes(results, scenarios) + Listed(TaughtByRun(r, scenarios[|results|]))
  {
    OneMoreResult(results, scenarios, r);
    hide PrefixBytes, Successes, LastCall;
  }

  lemma {:induction false} LessonOfSimulator(truths: seq<Scenario>, observe: int -> real -> real, outcomes: seq<Outcome>, o: Outcome)
    requires |outcomes| < |truths|
    requires forall i :: 0 <= i < |truths| ==> truths[i].bandwidthBytesPerSec > 0.0
    ensures var k := |outcomes|;
            History(truths, observe, outcomes + [o]) ==
            History(truths, observe, outcomes) + Listed(TaughtBySimulator(o, truths[k], observe(k)))
  {
    HistoryStep(truths, observe, outcomes, o);
    hide History, Scenario.Bytes, TransferDuration;
  }

  /** Every transfer the simulator made was of a positive whole number of bytes. */
  ghost predicate WholeTransfers(truths: seq<Scenario>, outcomes: seq<Outcome>)
    requires |outcomes| <= |truths|
  {
    forall k :: 0 <= k < |outcomes| && outcomes[k].executed == Action.Transfer ==> WholePrefix(truths[k])
  }

  lemma {:induction false} OutcomesWithin<L>(b: Beliefs<L>, probeEvery: int, observe: int -> real -> real, truths: seq<Scenario>, l: L, n: nat)
    requires n <= |truths|
    ensures var s := RunTo(b, probeEvery, observe, truths, l, n);
            |s.outcomes| <= n && (s.stopped.None? ==> |s.outcomes| == n)
  {
    hide Record, Lowest, Candidates, Belief;
    if n > 0 {
      OutcomesWithin(b, probeEvery, observe, truths, l, n - 1);
    }
  }

  /** What one more request of both runs leaves: the same finished requests, or one more each, and agreement exactly if that was no transfer or a whole one. */
  lemma StaysInStepIff<L>(b: Beliefs<L>, probeEvery: int, w: World, observe: int -> real -> real, truths: seq<Scenario>, l: L, k: nat)
    requires k < |truths| && SoundTruths(truths) && Faithful(w, observe, truths)
    requires InStep(b, probeEvery, w, observe, truths, l, k)
    ensures var s, s' := RunTo(b, probeEvery, observe, truths, l, k), RunTo(b, probeEvery, observe, truths, l, k + 1);
            && |s.outcomes| <= k
            && if s'.stopped.Some? then s'.outcomes == s.outcomes && InStep(b, probeEvery, w, observe, truths, l, k + 1)
               else
                 && |s.outcomes| == k && |s'.outcomes| == k + 1 && s'.outcomes == s.outcomes + [s'.outcomes[k]]
                 && (InStep(b, probeEvery, w, observe, truths, l, k + 1) <==>
                     s'.outcomes[k].executed != Action.Transfer || WholePrefix(truths[k]))
  {
    var c, s := LogTo(b, probeEvery, w, truths, l, k), RunTo(b, probeEvery, observe, truths, l, k);
    var c', s' := LogTo(b, probeEvery, w, truths, l, k + 1), RunTo(b, probeEvery, observe, truths, l, k + 1);
    OutcomesWithin(b, probeEvery, observe, truths, l, k);
    hide Serve, ServeRequest;
    if c.stopped.None? {
      StateIsHistory(b, probeEvery, w, truths, l, k);
      OneRequestAgreesIff(b, probeEvery, w, observe(k), k, truths[k], c, s);
      if c'.stopped.None? {
        AgreeAfterOneMore(c, s, c', s', truths, observe, c'.results[k], s'.outcomes[k]);
      }
    }
    hide LogTo, RunTo, WholePrefix, PrefixBytes, Scenario.Bytes, TransferDuration, LastCall, Beliefs.Predict, Successes, History, TaughtByRun, TaughtBySimulator;
  }

  lemma OutcomesGrow<L>(b: Beliefs<L>, probeEvery: int, observe: int -> real -> real, truths: seq<Scenario>, l: L, k: nat)
    requires k < |truths|
    ensures RunTo(b, probeEvery, observe, truths, l, k).outcomes <= RunTo(b, probeEvery, observe, truths, l, k + 1).outcomes
  {
    hide Record, Lowest, Candidates, Belief, TransferDuration;
  }

  lemma WholeOneMore(truths: seq<Scenario>, outcomes: seq<Outcome>, o: Outcome)
    requires |outcomes| < |truths|
    ensures WholeTransfers(truths, outcomes + [o]) <==>
            WholeTransfers(truths, outcomes) && (o.executed != Action.Transfer || WholePrefix(truths[|outcomes|]))
  {
    hide WholePrefix;
    if WholeTransfers(truths, outcomes + [o]) {
      forall k | 0 <= k < |outcomes| && outcomes[k].executed == Action.Transfer
        ensures WholePrefix(truths[k])
      {
        assert (outcomes + [o])[k] == outcomes[k];
      }
      assert (outcomes + [o])[|outcomes|] == o;
    }
  }

  ghost predicate AlwaysInStep<L>(b: Beliefs<L>, probeEvery: int, w: World, observe: int -> real -> real, truths: seq<Scenario>, l: L, n: nat)
    requires n <= |truths| && SoundTruths(truths)
  {
    forall k: nat :: k <= n ==> InStep(b, probeEvery, w, observe, truths, l, k)
  }

  lemma AlwaysOneMore<L>(b: Beliefs<L>, probeEvery: int, w: World, observe: int -> real -> real, truths: seq<Scenario>, l: L, n: nat)
    requires n < |truths| && SoundTruths(truths)
    ensures AlwaysInStep(b, probeEvery, w, observe, truths, l, n + 1) <==>
            AlwaysInStep(b, probeEvery, w, observe, truths, l, n) && InStep(b, probeEvery, w, observe, truths, l, n + 1)
    ensures AlwaysInStep(b, probeEvery, w, observe, truths, l, n) ==> InStep(b, probeEvery, w, observe, truths, l, n)
  {
    hide InStep, SoundTruths;
  }

  lemma {:induction false} AgreeAtStart<L>(b: Beliefs<L>, probeEvery: int, w: World, observe: int -> real -> real, truths: seq<Scenario>, l: L)
    requires SoundTruths(truths)
    ensures RunTo(b, probeEvery, observe, truths, l, 0).outcomes == [] && WholeTransfers(truths, [])
    ensures AlwaysInStep(b, probeEvery, w, observe, truths, l, 0)
  {
    NoResults(b, l, truths);
    hide SoundTruths, WholePrefix;
  }

  /**
   The two loops agree at every point of a run if and only if every transfer the
   simulator makes in it is of a positive whole number of bytes.
   */
  lemma {:induction false} AgreeThroughoutIff<L>(
    b: Beliefs<L>, probeEvery: int, w: World, observe: int -> real -> real, truths: seq<Scenario>, l: L, n: nat)
    requires n <= |truths| && SoundTruths(truths) && Faithful(w, observe, truths)
    ensures |RunTo(b, probeEvery, observe, truths, l, n).outcomes| <= |truths|
    ensures AlwaysInStep(b, probeEvery, w, observe, truths, l, n) <==>
            WholeTransfers(truths, RunTo(b, probeEvery, observe, truths, l, n).outcomes)
  {
    hide InStep, AlwaysInStep, RunTo, LogTo, WholePrefix, SoundTruths, Faithful, WholeTransfers;
    OutcomesWithin(b, probeEvery, observe, truths, l, n);
    if n == 0 {
      AgreeAtStart(b, probeEvery, w, observe, truths, l);
    } else {
      var before, after := RunTo(b, probeEvery, observe, truths, l, n - 1).outcomes, RunTo(b, probeEvery, observe, truths, l, n).outcomes;
      AgreeThroughoutIff(b, probeEvery, w, observe, truths, l, n - 1);
      OutcomesGrow(b, probeEvery, observe, truths, l, n - 1);
      AlwaysOneMore(b, probeEvery, w, observe, truths, l, n - 1);
      if WholeTransfers(truths, after) {
        WholeGrows(truths, before, after);
      }
      if InStep(b, probeEvery, w, observe, truths, l, n - 1) {
        StaysInStepIff(b, probeEvery, w, observe, truths, l, n - 1);
        if RunTo(b, probeEvery, observe, truths, l, n).stopped.None? {
          WholeOneMore(truths, before, after[n - 1]);
        }
      }
    }
  }

  lemma WholeGrows(truths: seq<Scenario>, before: seq<Outcome>, after: seq<Outcome>)
    requires before <= after && |after| <= |truths| && WholeTransfers(truths, after)
    ensures WholeTransfers(truths, before)
  {
    hide WholePrefix;
    forall k | 0 <= k < |before| && before[k].executed == Action.Transfer
      ensures WholePrefix(truths[k])
    {
      assert after[k] == before[k];
    }
  }

  /** In particular, when every prefix is a positive whole number of bytes, both loops believe, do and learn the same at every request. */
  lemma {:induction false} AgreesWithSimulator<L>(
    b: Beliefs<L>, probeEvery: int, w: World, observe: int -> real -> real, truths: seq<Scenario>, l: L, n: nat)
    requires n <= |truths| && SoundTruths(truths) && Faithful(w, observe, truths)
    requires forall i :: 0 <= i < |truths| ==> WholePrefix(truths[i])
    ensures var c, s := LogTo(b, probeEvery, w, truths, l, n), RunTo(b, probeEvery, observe, truths, l, n);
            && (c.stopped.Some? <==> s.stopped.Some?)
            && SameChoices(c.results, s.outcomes)
            && !c.control.down
            && s.loop == Loop(c.control.sinceTransfer, c.control.learner)
  {
    hide LogTo, RunTo, WholePrefix;
    AgreeThroughoutIff(b, probeEvery, w, observe, truths, l, n);
    assert InStep(b, probeEvery, w, observe, truths, l, n);
  }

  lemma StoppedKeepsOutcomes<L>(b: Beliefs<L>, probeEvery: int, report: real -> real, truth: Scenario, s: Simulator.RunState<L>)
    ensures var t := ServeRequest(b, probeEvery, report, truth, s);
            t.stopped.Some? ==> t.outcomes == s.outcomes && t.loop == s.loop
  {
    hide Record, Lowest, Candidates, Belief, TransferDuration;
  }

  /**
   An empty prefix that is forced to transfer resets the simulator's probe count and
   not the controller's, so the controller probes again at the next request and the
   simulator does not.
   */
  lemma EmptyPrefixSeparatesThem<L>(
    b: Beliefs<L>, probeEvery: int, w: World, report: real -> real, i: int, truth: Scenario, c: Log<L>, s: Simulator.RunState<L>)
    requires c.stopped.None? && s.stopped.None? && truth.Sound() && !w.ctxEndsBefore(i)
    requires PrefixBytes(truth) == 0 && truth.Bytes() == 0.0
    requires !c.control.down && s.loop == Loop(c.control.sinceTransfer, c.control.learner)
    requires Believed(b, c.control.learner, truth).Valid()
    requires probeEvery > 0 && c.control.sinceTransfer >= probeEvery
    ensures var c', s' := Serve(b, probeEvery, w, i, truth, c), ServeRequest(b, probeEvery, report, truth, s);
            && c'.stopped.None? && s'.stopped.None?
            && c'.results[|c.results|..] != [] && c'.results[|c.results|].action == Action.Transfer
            && s'.outcomes[|s.outcomes|..] != [] && s'.outcomes[|s.outcomes|].executed == Action.Transfer
            && Probes(probeEvery, c'.control.sinceTransfer) && !Probes(probeEvery, s'.loop.sinceTransfer)
  {
    hide Serve, ServeRequest, PrefixBytes, Cheapest, Believed, True, Beliefs.Predict, Scenario.Bytes, Scenario.Inputs, Inputs.Valid, TtftUnder, TransferDuration;
    SoundTruth(truth);
    ServeCases(b, probeEvery, w, i, truth, c);
    RequestServed(b, probeEvery, report, truth, s);
  }

  /** A request for one byte that costs nothing to wait for, so nothing is ever cheaper. */
  const FREE := Scenario(Simulator.Worker(0.0, 1.0), Simulator.Worker(1.0, 1.0), Request(1, 0), 1.0, 1.0, 0.0)

  /** The same request for other KV state. */
  function Prefixed(tokens: int, kvBytes: real): Scenario {
    FREE.(request := Request(tokens, 0), kvBytesPerToken := kvBytes)
  }

  ghost function OneSecond(): int -> real -> real {
    (i: int) => (seconds: real) => 1.0
  }

  /** Every usable belief waits for `free`, and `short` sends nothing. */
  ghost predicate Parting(b: Beliefs<real>, free: Scenario, short: Scenario) {
    && free.Sound() && short.Sound() && PrefixBytes(free) == 1 && PrefixBytes(short) == 0
    && Believed(b, 1.0, short).Valid()
    && (forall l :: l > 0.0 ==> Believed(b, l, free).Valid() && Cheapest(Believed(b, l, free)) == Wait)
    && (forall l, bytes: Positive :: l > 0.0 ==> b.observe(l, bytes, 1.0) > 0.0)
  }

  lemma PartingFree(b: Beliefs<real>, free: Scenario, short: Scenario, l: real)
    requires Parting(b, free, short) && l > 0.0
    ensures Believed(b, l, free).Valid() && Cheapest(Believed(b, l, free)) == Wait
  {
    hide Believed, Cheapest, Inputs.Valid, PrefixBytes, Scenario.Sound;
  }

  lemma PartingFirst(b: Beliefs<real>, free: Scenario, short: Scenario, c: Log<real>, s: Simulator.RunState<real>)
    requires Parting(b, free, short)
    requires c == Log(Control(0, false, 1.0), [], None) && s == RunState(Loop(0, 1.0), [], None)
    ensures var c', s' := Serve(b, 1, Answers(1.0), 0, free, c), ServeRequest(b, 1, OneSecond()(0), free, s);
            && c'.stopped.None? && c'.control == Control(1, false, 1.0) && |c'.results| == 1
            && s'.stopped.None? && s'.loop == Loop(1, 1.0) && |s'.outcomes| == 1
  {
    PartingFree(b, free, short, 1.0);
    SoundTruth(free);
    ServeCases(b, 1, Answers(1.0), 0, free, c);
    RequestServed(b, 1, OneSecond()(0), free, s);
    hide Serve, ServeRequest, PrefixBytes, Cheapest, Believed, True, Beliefs.Predict, Scenario.Bytes, Inputs.Valid, TtftUnder, TransferDuration;
  }

  lemma PartingProbe(b: Beliefs<real>, free: Scenario, short: Scenario, c: Log<real>, s: Simulator.RunState<real>)
    requires Parting(b, free, short)
    requires c.stopped.None? && c.control == Control(1, false, 1.0) && |c.results| == 1
    requires s.stopped.None? && s.loop == Loop(1, 1.0) && |s.outcomes| == 1
    ensures var c', s' := Serve(b, 1, Answers(1.0), 1, short, c), ServeRequest(b, 1, OneSecond()(1), short, s);
            && c'.stopped.None? && c'.control == Control(2, false, 1.0) && |c'.results| == 2
            && s'.stopped.None? && s'.loop.sinceTransfer == 0 && s'.loop.learner > 0.0 && |s'.outcomes| == 2
  {
    SoundTruth(short);
    ServeCases(b, 1, Answers(1.0), 1, short, c);
    RequestServed(b, 1, OneSecond()(1), short, s);
    hide Serve, ServeRequest, PrefixBytes, Cheapest, Believed, True, Beliefs.Predict, Scenario.Bytes, Inputs.Valid, TtftUnder, TransferDuration;
  }

  lemma PartingLast(b: Beliefs<real>, free: Scenario, short: Scenario, c: Log<real>, s: Simulator.RunState<real>)
    requires Parting(b, free, short)
    requires c.stopped.None? && c.control == Control(2, false, 1.0) && |c.results| == 2
    requires s.stopped.None? && s.loop.sinceTransfer == 0 && s.loop.learner > 0.0 && |s.outcomes| == 2
    ensures var c', s' := Serve(b, 1, Answers(1.0), 2, free, c), ServeRequest(b, 1, OneSecond()(2), free, s);
            && c'.stopped.None? && s'.stopped.None? && |c'.results| == |s'.outcomes| == 3
            && c'.results[2].action == Action.Transfer && s'.outcomes[2].executed == Wait
  {
    PartingFree(b, free, short, 1.0);
    PartingFree(b, free, short, s.loop.learner);
    SoundTruth(free);
    ServeCases(b, 1, Answers(1.0), 2, free, c);
    RequestServed(b, 1, OneSecond()(2), free, s);
    hide Serve, ServeRequest, PrefixBytes, Cheapest, Believed, True, Beliefs.Predict, Scenario.Bytes, Inputs.Valid, TtftUnder, TransferDuration;
  }

  lemma {:induction false} PartingRun(b: Beliefs<real>, free: Scenario, short: Scenario, truths: seq<Scenario>)
    requires Parting(b, free, short) && truths == [free, short, free]
    ensures var c, s := LogTo(b, 1, Answers(1.0), truths, 1.0, 3), RunTo(b, 1, OneSecond(), truths, 1.0, 3);
            && c.stopped.None? && s.stopped.None? && |c.results| == |s.outcomes| == 3
            && c.results[2].action == Action.Transfer && s.outcomes[2].executed == Wait
  {
    hide Serve, ServeRequest, Parting, Answers, OneSecond;
    var w, o := Answers(1.0), OneSecond();
    var c0, s0 := LogTo(b, 1, w, truths, 1.0, 0), RunTo(b, 1, o, truths, 1.0, 0);
    PartingFirst(b, free, short, c0, s0);
    var c1, s1 := LogTo(b, 1, w, truths, 1.0, 1), RunTo(b, 1, o, truths, 1.0, 1);
    assert c1 == Serve(b, 1, w, 0, free, c0) && s1 == ServeRequest(b, 1, o(0), free, s0);
    PartingProbe(b, free, short, c1, s1);
    var c2, s2 := LogTo(b, 1, w, truths, 1.0, 2), RunTo(b, 1, o, truths, 1.0, 2);
    assert c2 == Serve(b, 1, w, 1, short, c1) && s2 == ServeRequest(b, 1, o(1), short, s1);
    PartingLast(b, free, short, c2, s2);
  }

  lemma WaitIsCheapest(b: Beliefs<real>, l: real)
    requires b.startup(l) >= 0.0 && b.secondsPerByte(l) > 0.0
    ensures Believed(b, l, FREE).Valid() && Cheapest(Believed(b, l, FREE)) == Wait
  {
    PriceableIsValid(b, l, FREE);
    BelievedTime(b, l, FREE);
  }

  lemma ShortTruncates(x: real)
    requires 0.0 <= x < 1.0
    ensures Truncate(x) == 0 && Truncate(1.0) == 1
  {
  }

  lemma ShortPrefixParts(tokens: nat, kvBytes: real)
    requires kvBytes > 0.0 && tokens as real * kvBytes < 1.0
    ensures Parting(EwmaBeliefs(1.0), FREE, Prefixed(tokens, kvBytes))
  {
    var b := EwmaBeliefs(1.0);
    MulNonNegative(tokens as real, kvBytes);
    ShortTruncates(tokens as real * kvBytes);
    hide Truncate;
    forall l | l > 0.0
      ensures Believed(b, l, FREE).Valid() && Cheapest(Believed(b, l, FREE)) == Wait
    {
      WaitIsCheapest(b, l);
    }
    forall l, bytes: Positive | l > 0.0
      ensures b.observe(l, bytes, 1.0) > 0.0
    {
      EwmaIsFade(1.0, l, bytes, 1.0);
      DividePositive(1.0, bytes);
    }
    hide Cheapest, EwmaObserve;
  }

  /**
   A run from the start on which the two part, for every prefix of less than one
   byte: its probe resets the simulator's count only, so at the request after it
   the controller transfers again and the simulator waits.
   */
  lemma ShortPrefixPartsRuns(tokens: nat, kvBytes: real)
    requires kvBytes > 0.0 && tokens as real * kvBytes < 1.0
    ensures var truths := [FREE, Prefixed(tokens, kvBytes), FREE];
            var c := LogTo(EwmaBeliefs(1.0), 1, Answers(1.0), truths, 1.0, 3);
            var s := RunTo(EwmaBeliefs(1.0), 1, OneSecond(), truths, 1.0, 3);
            && SoundTruths(truths) && Faithful(Answers(1.0), OneSecond(), truths)
            && c.stopped.None? && s.stopped.None? && |c.results| == |s.outcomes| == 3
            && c.results[2].action == Action.Transfer && s.outcomes[2].executed == Wait
  {
    var short := Prefixed(tokens, kvBytes);
    ShortPrefixParts(tokens, kvBytes);
    assert SoundTruths([FREE, short, FREE]);
    hide LogTo, RunTo, Parting, TransferDuration, Scenario.Sound;
    PartingRun(EwmaBeliefs(1.0), FREE, short, [FREE, short, FREE]);
  }
}

/**
 What Run guarantees over whole runs (internal/controller/controller.go): its
 state is a function of the finished results, retries are spaced, probes happen,
 and an early stop returns the finished results exactly under a stated condition.
 */
module ControllerRuns {
  import opened Results
  import opened Scheduler
  import opened CostModel
  import opened Learning
  import opened LineFit
  import opened Simulator
  import opened Controller
  import opened RateLearners
  import opened Adaptive

  // ---------------------------------------------------------------------------
  // One request
  // ---------------------------------------------------------------------------

  /** The best plan that moves nothing. */
  function BestAtHome(i: Inputs): Action
    requires i.Valid()
  {
    if i.WaitTTFT() <= i.RecomputeTTFT() then Wait else Recompute
  }

  function ActionTaken(i: Inputs, probe: bool, down: bool): Action
    requires i.Valid()
  {
    if probe then Action.Transfer
    else if down && Cheapest(i) == Action.Transfer then BestAtHome(i)
    else Cheapest(i)
  }

  lemma OthersOfThree(w: real, t: real, r: real)
    ensures BestWithoutTransfer([Candidate(Wait, w), Candidate(Action.Transfer, t), Candidate(Recompute, r)]) ==
            Ok(if w <= r then Candidate(Wait, w) else Candidate(Recompute, r))
  {
    var cs := [Candidate(Wait, w), Candidate(Action.Transfer, t), Candidate(Recompute, r)];
    assert cs[1..] == [Candidate(Action.Transfer, t), Candidate(Recompute, r)];
    assert cs[1..][1..] == [Candidate(Recompute, r)];
    assert Others([Candidate(Recompute, r)]) == [Candidate(Recompute, r)];
    assert Others(cs) == [Candidate(Wait, w), Candidate(Recompute, r)];
    var k := ChooseIsFirstLowest(Others(cs));
    assert Others(cs)[0].ttft == w && Others(cs)[1].ttft == r;
  }

  lemma DecisionMade<L>(b: Beliefs<L>, probeEvery: int, s: Scenario, control: Control<L>)
    ensures var i := Believed(b, control.learner, s);
            Controller.Decide(b, probeEvery, s, control) ==
            if i.Valid() then Ok(Decision(Cheapest(i), ActionTaken(i, Probes(probeEvery, control.sinceTransfer), control.down)))
            else Err(BadEstimate)
  {
    var i := Believed(b, control.learner, s);
    EstimateOffersThree(Belief(b, control.learner, s), b.startup(control.learner));
    if i.Valid() {
      ChooseOfThree(i.WaitTTFT(), i.TransferTTFT(), i.RecomputeTTFT());
      OthersOfThree(i.WaitTTFT(), i.TransferTTFT(), i.RecomputeTTFT());
    }
    hide Choose, EstimateFor, BestWithoutTransfer, Inputs.WaitTTFT, Inputs.TransferTTFT, Inputs.RecomputeTTFT, Inputs.Valid;
  }

  /** Every way one request can go. */
  lemma ServeCases<L>(b: Beliefs<L>, probeEvery: int, w: World, i: int, s: Scenario, st: Log<L>)
    requires st.stopped.None?
    ensures var t, c := Serve(b, probeEvery, w, i, s, st), st.control;
            var inputs := Believed(b, c.learner, s);
            && (t.stopped.Some? ==> t.results == st.results && t.control == c)
            && (w.ctxEndsBefore(i) ==> t.stopped == Some(ContextEnded))
            && (!w.ctxEndsBefore(i) && !inputs.Valid() ==> t.stopped == Some(BadEstimate))
            && (!w.ctxEndsBefore(i) && inputs.Valid() ==>
                  var action := ActionTaken(inputs, Probes(probeEvery, c.sinceTransfer), c.down);
                  var bytes := PrefixBytes(s);
                  var result := RunResult(Cheapest(inputs), action, b.Predict(c.learner, bytes as real), 0.0, None);
                  if action != Action.Transfer || bytes <= 0 then
                    t == Log(Control(c.sinceTransfer + 1, c.down, c.learner), st.results + [result], None)
                  else match w.reply(i)
                    case Replied(seconds) =>
                      t == Log(Control(0, false, b.observe(c.learner, bytes as real, seconds)),
                               st.results + [result.(seconds := seconds)], None)
                    case Failed(code) =>
                      if w.ctxEnded(i) || code == Code.InvalidArgument || code == Code.PermissionDenied
                      then t.stopped == Some(CallFailed(code))
                      else t == Log(Control(0, true, c.learner), st.results + [result.(err := Some(code))], None))
  {
    hide Controller.Decide, PrefixBytes, Beliefs.Predict, ActionTaken, Cheapest, Believed;
    DecisionMade(b, probeEvery, s, st.control);
  }

  // ---------------------------------------------------------------------------
  // The run's state, read off the finished results
  // ---------------------------------------------------------------------------

  /** Request i asked the worker for a transfer. */
  predicate Called(results: seq<RunResult>, scenarios: seq<Scenario>, i: int)
    requires 0 <= i < |results| <= |scenarios|
  {
    results[i].action == Action.Transfer && PrefixBytes(scenarios[i]) > 0
  }

  /** The last request that called the worker, or -1. */
  function LastCall(results: seq<RunResult>, scenarios: seq<Scenario>): (i: int)
    requires |results| <= |scenarios|
    ensures -1 <= i < |results|
    ensures i >= 0 ==> Called(results, scenarios, i)
    ensures forall k :: i < k < |results| ==> !Called(results, scenarios, k)
  {
    if results == [] then -1
    else if Called(results, scenarios, |results| - 1) then |results| - 1
    else
      var before := results[..|results| - 1];
      assert forall k :: 0 <= k < |before| ==> Called(before, scenarios, k) == Called(results, scenarios, k);
      LastCall(before, scenarios)
  }

  /** The transfers that succeeded, in order. */
  function Successes(results: seq<RunResult>, scenarios: seq<Scenario>): seq<Sample>
    requires |results| <= |scenarios|
  {
    if results == [] then []
    else
      var k := |results| - 1;
      Successes(results[..k], scenarios) +
      if Called(results, scenarios, k) && results[k].err.None?
      then [Sample(PrefixBytes(scenarios[k]) as real, results[k].seconds)] else []
  }

  predicate LatestCallFailed(results: seq<RunResult>, scenarios: seq<Scenario>)
    requires |results| <= |scenarios|
  {
    LastCall(results, scenarios) >= 0 && results[LastCall(results, scenarios)].err.Some?
  }

  lemma {:induction false} OneMoreResult(results: seq<RunResult>, scenarios: seq<Scenario>, r: RunResult)
    requires |results| < |scenarios|
    ensures var all, k := results + [r], |results|;
            && LastCall(all, scenarios) == (if Called(all, scenarios, k) then k else LastCall(results, scenarios))
            && LatestCallFailed(all, scenarios) ==
               (if Called(all, scenarios, k) then r.err.Some? else LatestCallFailed(results, scenarios))
            && Successes(all, scenarios) ==
               (if Called(all, scenarios, k) && r.err.None?
                then Successes(results, scenarios) + [Sample(PrefixBytes(scenarios[k]) as real, r.seconds)]
                else Successes(results, scenarios))
  {
    hide PrefixBytes;
    assert (results + [r])[..|results|] == results;
  }

  /**
   Bookkeeping. At any point of any run, the learner is what the successful calls
   taught it, in order; the path counts as down exactly if the latest call failed;
   and sinceTransfer counts the requests after the latest call.
   */
  lemma {:induction false} StateIsHistory<L>(b: Beliefs<L>, probeEvery: int, w: World, scenarios: seq<Scenario>, l: L, n: nat)
    requires n <= |scenarios|
    ensures var st := LogTo(b, probeEvery, w, scenarios, l, n);
            && |st.results| <= n
            && (st.stopped.None? ==> |st.results| == n)
            && st.control.learner == b.Taught(l, Successes(st.results, scenarios))
            && st.control.down == LatestCallFailed(st.results, scenarios)
            && st.control.sinceTransfer == |st.results| - 1 - LastCall(st.results, scenarios)
  {
    hide Serve, PrefixBytes, ActionTaken, Cheapest, Believed, Beliefs.Predict, Inputs.Valid, LastCall, LatestCallFailed, Successes;
    if n == 0 {
      NoResults(b, l, scenarios);
    } else {
      StateIsHistory(b, probeEvery, w, scenarios, l, n - 1);
      var st := LogTo(b, probeEvery, w, scenarios, l, n - 1);
      if st.stopped.None? {
        var t := LogTo(b, probeEvery, w, scenarios, l, n);
        ServeCases(b, probeEvery, w, n - 1, scenarios[n - 1], st);
        if t.stopped.None? {
          var r := t.results[n - 1];
          assert t.results == st.results + [r];
          OneMoreResult(st.results, scenarios, r);
          if r.action == Action.Transfer && PrefixBytes(scenarios[n - 1]) > 0 {
            var bytes := PrefixBytes(scenarios[n - 1]) as real;
            b.TaughtOneMore(l, Successes(st.results, scenarios), Sample(bytes, r.seconds));
          }
        }
      }
    }
  }

  lemma {:induction false} NoResults<L>(b: Beliefs<L>, l: L, scenarios: seq<Scenario>)
    ensures LastCall([], scenarios) == -1 && !LatestCallFailed([], scenarios)
    ensures Successes([], scenarios) == [] && b.Taught(l, []) == l
  {
  }

  /** One more request leaves the finished results as they were, or adds one. */
  lemma ResultsGrow<L>(b: Beliefs<L>, probeEvery: int, w: World, scenarios: seq<Scenario>, l: L, n: nat)
    requires n < |scenarios|
    ensures var s, t := LogTo(b, probeEvery, w, scenarios, l, n), LogTo(b, probeEvery, w, scenarios, l, n + 1);
            && |s.results| <= n && (s.stopped.None? ==> |s.results| == n)
            && s.results <= t.results && |t.results| <= |s.results| + 1
            && (s.stopped.Some? ==> t == s) && (t.stopped.Some? ==> t.results == s.results)
  {
    hide Serve, PrefixBytes, ActionTaken, Cheapest, Believed, Beliefs.Predict, Inputs.Valid;
    hide LastCall, LatestCallFailed, Successes, Beliefs.Taught;
    StateIsHistory(b, probeEvery, w, scenarios, l, n);
    if LogTo(b, probeEvery, w, scenarios, l, n).stopped.None? {
      ServeCases(b, probeEvery, w, n, scenarios[n], LogTo(b, probeEvery, w, scenarios, l, n));
    }
  }

  /** The first k results are those of the run after k requests, which had not stopped. */
  lemma {:induction false} LogPrefix<L>(b: Beliefs<L>, probeEvery: int, w: World, scenarios: seq<Scenario>, l: L, k: nat, n: nat)
    requires n <= |scenarios| && k <= |LogTo(b, probeEvery, w, scenarios, l, n).results|
    ensures k <= n
    ensures var s, t := LogTo(b, probeEvery, w, scenarios, l, k), LogTo(b, probeEvery, w, scenarios, l, n);
            s.stopped.None? && s.results == t.results[..k]
  {
    hide Serve;
    var t := LogTo(b, probeEvery, w, scenarios, l, n);
    if n > 0 {
      hide LogTo;
      ResultsGrow(b, probeEvery, w, scenarios, l, n - 1);
      var s := LogTo(b, probeEvery, w, scenarios, l, n - 1);
      if k <= |s.results| {
        LogPrefix(b, probeEvery, w, scenarios, l, k, n - 1);
      } else {
        assert t.results[..k] == t.results;
      }
    }
  }

  /** What Run needs of a scenario: its bandwidth and startup are ignored. */
  ghost predicate SoundRequest(s: Scenario) {
    s.(bandwidthBytesPerSec := 1.0, transferStartup := 0.0).Sound()
  }

  /** The cost model accepts this belief about this request. */
  ghost predicate Priceable<L>(b: Beliefs<L>, l: L, s: Scenario) {
    SoundRequest(s) && b.startup(l) >= 0.0 && b.secondsPerByte(l) > 0.0
  }

  lemma PriceableIsValid<L>(b: Beliefs<L>, l: L, s: Scenario)
    ensures Believed(b, l, s).Valid() <==> Priceable(b, l, s)
  {
    var spb := b.secondsPerByte(l);
    if spb != 0.0 {
      PositiveInverse(spb);
    }
  }

  /**
   Where a run stopped. Its log is that of the run up to the request that stopped
   it, whose reason is that request's: the context ended before it, its call failed
   for good, or it could not be priced.
   */
  lemma {:induction false} StoppedAt<L>(b: Beliefs<L>, probeEvery: int, w: World, scenarios: seq<Scenario>, l: L, n: nat)
    requires n <= |scenarios|
    requires LogTo(b, probeEvery, w, scenarios, l, n).stopped.Some?
    ensures var t := LogTo(b, probeEvery, w, scenarios, l, n);
            var i := |t.results|;
            && i < n
            && LogTo(b, probeEvery, w, scenarios, l, i) == t.(stopped := None)
            && LogTo(b, probeEvery, w, scenarios, l, i + 1) == t
            && (t.stopped == Some(ContextEnded) || t.stopped == Some(BadEstimate) || t.stopped.value.CallFailed?)
            && (t.stopped == Some(ContextEnded) <==> w.ctxEndsBefore(i))
            && (t.stopped == Some(BadEstimate) <==> !w.ctxEndsBefore(i) && !Priceable(b, t.control.learner, scenarios[i]))
            && (t.stopped.value.CallFailed? ==>
                  var code := t.stopped.value.code;
                  && w.reply(i) == Failed(code)
                  && (w.ctxEnded(i) || code == Code.InvalidArgument || code == Code.PermissionDenied))
  {
    hide Serve, PrefixBytes, ActionTaken, Cheapest, Believed, Beliefs.Predict, Inputs.Valid, Priceable;
    var s := LogTo(b, probeEvery, w, scenarios, l, n - 1);
    if s.stopped.Some? {
      StoppedAt(b, probeEvery, w, scenarios, l, n - 1);
    } else {
      StateIsHistory(b, probeEvery, w, scenarios, l, n - 1);
      ServeCases(b, probeEvery, w, n - 1, scenarios[n - 1], s);
      PriceableIsValid(b, s.control.learner, scenarios[n - 1]);
    }
  }

  // ---------------------------------------------------------------------------
  // What an early stop returns
  // ---------------------------------------------------------------------------

  /** Run hands back the requests that finished, with the error if it stopped. */
  ghost predicate ReturnsFinished<L>(t: Log<L>) {
    Returned(t) == (t.results, t.stopped)
  }

  /**
   A run that stops early returns the finished requests if and only if there were
   none, the context had ended, or the request that stopped it could be priced.
   Otherwise it returns none of them.
   */
  lemma {:induction false} StopReturnsFinishedIff<L>(b: Beliefs<L>, probeEvery: int, w: World, scenarios: seq<Scenario>, l: L, n: nat)
    requires n <= |scenarios|
    requires LogTo(b, probeEvery, w, scenarios, l, n).stopped.Some?
    ensures var t := LogTo(b, probeEvery, w, scenarios, l, n);
            var i := |t.results|;
            && i < n
            && (ReturnsFinished(t) <==> i == 0 || w.ctxEndsBefore(i) || Priceable(b, t.control.learner, scenarios[i]))
            && (!ReturnsFinished(t) ==> Returned(t) == ([], Some(BadEstimate)))
  {
    hide Priceable, LogTo;
    StoppedAt(b, probeEvery, w, scenarios, l, n);
  }

  /** A worker that always answers the same, under a context that never ends. */
  function Answers(seconds: real): World {
    World((i: int) => false, (i: int) => false, (i: int) => Replied(seconds))
  }

  /** A run that loses a finished request: the worker reports a transfer that took no time, so the next belief cannot be priced. */
  lemma FinishedRequestLost()
    ensures var s := Scenario(Simulator.Worker(10.0, 1.0), Simulator.Worker(0.0, 1.0), Request(1, 0), 1.0, 1.0, 0.0);
            var t := LogTo(EwmaBeliefs(1.0), 0, Answers(0.0), [s, s], 0.5, 2);
            |t.results| == 1 && t.results[0].err.None? && t.stopped == Some(BadEstimate) && Returned(t) == ([], Some(BadEstimate))
  {
    var s := Scenario(Simulator.Worker(10.0, 1.0), Simulator.Worker(0.0, 1.0), Request(1, 0), 1.0, 1.0, 0.0);
    var b, w := EwmaBeliefs(1.0), Answers(0.0);
    var first := LogTo(b, 0, w, [s, s], 0.5, 1);
    assert LogTo(b, 0, w, [s, s], 0.5, 0) == Log(Control(0, false, 0.5), [], None);
    ServeCases(b, 0, w, 0, s, LogTo(b, 0, w, [s, s], 0.5, 0));
    ServeCases(b, 0, w, 1, s, first);
    PriceableIsValid(b, 0.5, s);
    PriceableIsValid(b, 0.0, s);
    assert Believed(b, 0.5, s).TransferTTFT() == 0.5;
    hide Serve;
  }

  // ---------------------------------------------------------------------------
  // Which failed calls end a run
  // ---------------------------------------------------------------------------

  /** A run that reaches request i decides to call the worker for it. */
  ghost predicate Calls<L>(b: Beliefs<L>, probeEvery: int, w: World, scenarios: seq<Scenario>, l: L, i: nat)
    requires i < |scenarios|
  {
    var st := LogTo(b, probeEvery, w, scenarios, l, i);
    && st.stopped.None? && !w.ctxEndsBefore(i)
    && Controller.Decide(b, probeEvery, scenarios[i], st.control).Ok?
    && Controller.Decide(b, probeEvery, scenarios[i], st.control).value.action == Action.Transfer
    && PrefixBytes(scenarios[i]) > 0
  }

  /**
   A failed call ends the run if and only if the context has ended or the worker
   rejected the request as misconfigured. Any other failure is recorded, takes the
   path down and teaches the learner nothing, and the run goes on.
   */
  lemma FailureEndsRunIff<L>(b: Beliefs<L>, probeEvery: int, w: World, scenarios: seq<Scenario>, l: L, i: nat, code: Code)
    requires i < |scenarios| && Calls(b, probeEvery, w, scenarios, l, i) && w.reply(i) == Failed(code)
    ensures var st, t := LogTo(b, probeEvery, w, scenarios, l, i), LogTo(b, probeEvery, w, scenarios, l, i + 1);
            && (t.stopped.Some? <==> w.ctxEnded(i) || code == Code.InvalidArgument || code == Code.PermissionDenied)
            && (t.stopped.Some? ==> t == st.(stopped := Some(CallFailed(code))))
            && (t.stopped.None? ==>
                  && |t.results| == |st.results| + 1 && t.results[..|st.results|] == st.results
                  && t.results[|st.results|].err == Some(code) && t.results[|st.results|].seconds == 0.0
                  && t.control == Control(0, true, st.control.learner))
  {
    var st := LogTo(b, probeEvery, w, scenarios, l, i);
    hide Controller.Decide, PrefixBytes, Beliefs.Predict;
    assert LogTo(b, probeEvery, w, scenarios, l, i + 1) == Serve(b, probeEvery, w, i, scenarios[i], st);
    hide LogTo;
  }

  /** A context that never ends. */
  ghost predicate Endless(w: World) {
    forall i :: !w.ctxEndsBefore(i) && !w.ctxEnded(i)
  }

  /** A dead or failing worker never ends a run: with no rejection among its failures, every request finishes. */
  lemma {:induction false} OutageNeverEndsRun<L>(b: Beliefs<L>, probeEvery: int, w: World, scenarios: seq<Scenario>, l: L, n: nat)
    requires n <= |scenarios| && SoundRequests(scenarios[..n]) && PositiveReplies(w) && AlwaysUsable(b, l)
    requires Endless(w) && forall i :: w.reply(i).Failed? ==> w.reply(i).code.OtherCode?
    ensures var st := LogTo(b, probeEvery, w, scenarios, l, n);
            st.stopped.None? && |st.results| == n
  {
    hide LogTo, SoundRequests, AlwaysUsable, Priceable;
    RunNeverRejectsBelief(b, probeEvery, w, scenarios, l, n);
    var st := LogTo(b, probeEvery, w, scenarios, l, n);
    if st.stopped.Some? {
      StoppedAt(b, probeEvery, w, scenarios, l, n);
      assert false;
    }
    StateIsHistory(b, probeEvery, w, scenarios, l, n);
  }

  /**
   Every finished request of a run, from the requests before it alone: what it
   believed, and what it did about it.
   */
  lemma {:induction false} EachDecision<L>(b: Beliefs<L>, probeEvery: int, w: World, scenarios: seq<Scenario>, l: L, n: nat, k: nat)
    requires n <= |scenarios| && k < |LogTo(b, probeEvery, w, scenarios, l, n).results| <= |scenarios|
    ensures var results := LogTo(b, probeEvery, w, scenarios, l, n).results;
            var before := results[..k];
            var inputs := Believed(b, b.Taught(l, Successes(before, scenarios)), scenarios[k]);
            && inputs.Valid()
            && results[k].believed == Cheapest(inputs)
            && results[k].action == ActionTaken(
                 inputs, Probes(probeEvery, k - 1 - LastCall(before, scenarios)), LatestCallFailed(before, scenarios))
  {
    hide Serve, PrefixBytes, ActionTaken, Cheapest, Believed, Beliefs.Predict, Inputs.Valid, LastCall, LatestCallFailed, Successes;
    LogPrefix(b, probeEvery, w, scenarios, l, k, n);
    LogPrefix(b, probeEvery, w, scenarios, l, k + 1, n);
    StateIsHistory(b, probeEvery, w, scenarios, l, k);
    StateIsHistory(b, probeEvery, w, scenarios, l, k + 1);
    ServeCases(b, probeEvery, w, k, scenarios[k], LogTo(b, probeEvery, w, scenarios, l, k));
  }

  /** What a finished request records: the prediction of the belief it had, and the worker's own answer to the call it made, if any. */
  lemma {:induction false} EachRecord<L>(b: Beliefs<L>, probeEvery: int, w: World, scenarios: seq<Scenario>, l: L, n: nat, k: nat)
    requires n <= |scenarios| && k < |LogTo(b, probeEvery, w, scenarios, l, n).results| <= |scenarios|
    ensures var results := LogTo(b, probeEvery, w, scenarios, l, n).results;
            var learner, r := b.Taught(l, Successes(results[..k], scenarios)), results[k];
            && r.predictedSeconds == b.Predict(learner, PrefixBytes(scenarios[k]) as real)
            && (Called(results, scenarios, k) ==> w.reply(k) == if r.err.None? then Replied(r.seconds) else Failed(r.err.value))
            && (!Called(results, scenarios, k) || r.err.Some? ==> r.seconds == 0.0)
            && (!Called(results, scenarios, k) ==> r.err.None?)
  {
    hide Serve, PrefixBytes, ActionTaken, Cheapest, Believed, Beliefs.Predict, Inputs.Valid, LastCall, LatestCallFailed, Successes;
    LogPrefix(b, probeEvery, w, scenarios, l, k, n);
    LogPrefix(b, probeEvery, w, scenarios, l, k + 1, n);
    StateIsHistory(b, probeEvery, w, scenarios, l, k);
    StateIsHistory(b, probeEvery, w, scenarios, l, k + 1);
    ServeCases(b, probeEvery, w, k, scenarios[k], LogTo(b, probeEvery, w, scenarios, l, k));
  }

  /** Believed and taken action differ only at a probe, or when transfer is believed while the path is down. */
  lemma {:induction false} DeviationsExplained<L>(b: Beliefs<L>, probeEvery: int, w: World, scenarios: seq<Scenario>, l: L, n: nat, k: nat)
    requires n <= |scenarios| && k < |LogTo(b, probeEvery, w, scenarios, l, n).results| <= |scenarios|
    ensures var results := LogTo(b, probeEvery, w, scenarios, l, n).results;
            var before := results[..k];
            var probe := Probes(probeEvery, k - 1 - LastCall(before, scenarios));
            && (probe ==> results[k].action == Action.Transfer)
            && (!probe ==>
                  (results[k].action != results[k].believed <==>
                   LatestCallFailed(before, scenarios) && results[k].believed == Action.Transfer)
                  && (LatestCallFailed(before, scenarios) ==> results[k].action != Action.Transfer))
  {
    hide LogTo, LastCall, LatestCallFailed, Successes, Cheapest, Believed, Inputs.WaitTTFT, Inputs.RecomputeTTFT, Inputs.Valid, Beliefs.Taught;
    EachDecision(b, probeEvery, w, scenarios, l, n, k);
  }

  // ---------------------------------------------------------------------------
  // Spacing
  // ---------------------------------------------------------------------------

  lemma {:induction false} LastCallIs(results: seq<RunResult>, scenarios: seq<Scenario>, i: nat, j: nat)
    requires i < j <= |results| <= |scenarios| && Called(results, scenarios, i)
    requires forall k :: i < k < j ==> !Called(results, scenarios, k)
    ensures LastCall(results[..j], scenarios) == i
  {
    var before := results[..j];
    assert forall k :: 0 <= k < j ==> (Called(before, scenarios, k) <==> Called(results, scenarios, k));
    hide PrefixBytes;
  }

  /** After a failed call, the next call is a probe, at least probeEvery + 1 requests later. */
  lemma {:induction false} RetriesAreSpaced<L>(b: Beliefs<L>, probeEvery: int, w: World, scenarios: seq<Scenario>, l: L, n: nat, i: nat, j: nat)
    requires n <= |scenarios| && i < j < |LogTo(b, probeEvery, w, scenarios, l, n).results| <= |scenarios|
    requires var results := LogTo(b, probeEvery, w, scenarios, l, n).results;
             && Called(results, scenarios, i) && results[i].err.Some?
             && Called(results, scenarios, j)
             && forall k :: i < k < j ==> !Called(results, scenarios, k)
    ensures probeEvery > 0 && j - i >= probeEvery + 1
  {
    hide PrefixBytes, LogTo, Believed, Cheapest;
    var results := LogTo(b, probeEvery, w, scenarios, l, n).results;
    LastCallIs(results, scenarios, i, j);
    DeviationsExplained(b, probeEvery, w, scenarios, l, n, j);
  }

  /** With probing off, a failed path is never tried again. */
  lemma {:induction false} NeverRetriedWithoutProbes<L>(b: Beliefs<L>, w: World, scenarios: seq<Scenario>, l: L, n: nat, i: nat, j: nat)
    requires n <= |scenarios| && i < j < |LogTo(b, 0, w, scenarios, l, n).results| <= |scenarios|
    requires var results := LogTo(b, 0, w, scenarios, l, n).results;
             Called(results, scenarios, i) && results[i].err.Some?
    ensures !Called(LogTo(b, 0, w, scenarios, l, n).results, scenarios, j)
    decreases j
  {
    hide PrefixBytes, LogTo;
    forall k | i < k < j
      ensures !Called(LogTo(b, 0, w, scenarios, l, n).results, scenarios, k)
    {
      NeverRetriedWithoutProbes(b, w, scenarios, l, n, i, k);
    }
    if Called(LogTo(b, 0, w, scenarios, l, n).results, scenarios, j) {
      RetriesAreSpaced(b, 0, w, scenarios, l, n, i, j);
    }
  }

  /** With probing on, any probeEvery + 1 requests in a row with something to send contain a call. */
  lemma {:induction false} ProbesAreNotSkipped<L>(b: Beliefs<L>, probeEvery: int, w: World, scenarios: seq<Scenario>, l: L, n: nat, j: nat)
    requires probeEvery > 0
    requires n <= |scenarios| && j + probeEvery < |LogTo(b, probeEvery, w, scenarios, l, n).results| <= |scenarios|
    requires PrefixBytes(scenarios[j + probeEvery]) > 0
    ensures exists i :: j <= i <= j + probeEvery && Called(LogTo(b, probeEvery, w, scenarios, l, n).results, scenarios, i)
  {
    hide PrefixBytes, LogTo;
    var results := LogTo(b, probeEvery, w, scenarios, l, n).results;
    var m := j + probeEvery;
    var last := LastCall(results[..m], scenarios);
    DeviationsExplained(b, probeEvery, w, scenarios, l, n, m);
    if last >= j {
      assert Called(results, scenarios, last);
    } else {
      assert Called(results, scenarios, m);
    }
  }

  // ---------------------------------------------------------------------------
  // A usable learner's belief is never rejected
  // ---------------------------------------------------------------------------

  ghost predicate SoundRequests(scenarios: seq<Scenario>) {
    forall i :: 0 <= i < |scenarios| ==> SoundRequest(scenarios[i])
  }

  ghost predicate PositiveReplies(w: World) {
    forall i :: w.reply(i).Replied? ==> w.reply(i).seconds > 0.0
  }

  lemma {:induction false} RunNeverRejectsBelief<L>(b: Beliefs<L>, probeEvery: int, w: World, scenarios: seq<Scenario>, l: L, n: nat)
    requires n <= |scenarios| && SoundRequests(scenarios[..n]) && PositiveReplies(w) && AlwaysUsable(b, l)
    ensures var st := LogTo(b, probeEvery, w, scenarios, l, n);
            && st.stopped != Some(BadEstimate)
            && |st.results| <= |scenarios|
            && Timed(Successes(st.results, scenarios))
  {
    hide Serve, PrefixBytes, ActionTaken, Cheapest, Believed, Beliefs.Predict, Beliefs.Taught, Inputs.Valid, AlwaysUsable, SoundRequest;
    hide LastCall, LatestCallFailed, Successes;
    if n == 0 {
      NoResults(b, l, scenarios);
      assert Timed([]);
    } else {
      assert SoundRequest(scenarios[n - 1]) && SoundRequests(scenarios[..n - 1]) by {
        assert scenarios[..n][n - 1] == scenarios[n - 1];
        assert forall i :: 0 <= i < n - 1 ==> scenarios[..n][i] == scenarios[..n - 1][i];
      }
      RunNeverRejectsBelief(b, probeEvery, w, scenarios, l, n - 1);
      StateIsHistory(b, probeEvery, w, scenarios, l, n - 1);
      StateIsHistory(b, probeEvery, w, scenarios, l, n);
      var st := LogTo(b, probeEvery, w, scenarios, l, n - 1);
      if st.stopped.None? {
        UsableAfter(b, l, Successes(st.results, scenarios));
        PriceableIsValid(b, st.control.learner, scenarios[n - 1]);
        assert Priceable(b, st.control.learner, scenarios[n - 1]);
        ServeCases(b, probeEvery, w, n - 1, scenarios[n - 1], st);
        var t := LogTo(b, probeEvery, w, scenarios, l, n);
        if t.stopped.None? {
          OneMoreResult(st.results, scenarios, t.results[n - 1]);
          assert t.results == st.results + [t.results[n - 1]];
        }
      }
    }
  }

  // ---------------------------------------------------------------------------
  // When no run can lose finished requests, from the scenarios alone
  // ---------------------------------------------------------------------------

  /** Whatever the worker and the context do, Run returns the requests that finished. */
  ghost predicate NeverLosesRequests<L>(b: Beliefs<L>, probeEvery: int, scenarios: seq<Scenario>, l: L) {
    forall w :: PositiveReplies(w) ==> ReturnsFinished(LogTo(b, probeEvery, w, scenarios, l, |scenarios|))
  }

  /**
   With a usable learner and positive reported times, the promise to return the
   finished requests holds of every run if and only if all scenarios are sound, or
   the first is not, so that no request ever finishes.
   */
  lemma NeverLosesRequestsIff<L>(b: Beliefs<L>, probeEvery: int, scenarios: seq<Scenario>, l: L)
    requires AlwaysUsable(b, l)
    ensures NeverLosesRequests(b, probeEvery, scenarios, l) <==>
            SoundRequests(scenarios) || !SoundRequest(scenarios[0])
  {
    hide LogTo, SoundRequest, AlwaysUsable;
    if SoundRequests(scenarios) {
      assert scenarios[..|scenarios|] == scenarios;
      forall w | PositiveReplies(w)
        ensures ReturnsFinished(LogTo(b, probeEvery, w, scenarios, l, |scenarios|))
      {
        RunNeverRejectsBelief(b, probeEvery, w, scenarios, l, |scenarios|);
      }
    } else if !SoundRequest(scenarios[0]) {
      forall w | PositiveReplies(w)
        ensures ReturnsFinished(LogTo(b, probeEvery, w, scenarios, l, |scenarios|))
      {
        NothingFinishes(b, probeEvery, w, scenarios, l);
      }
    } else {
      assert PositiveReplies(Answers(1.0));
      UnsoundLaterLosesAll(b, probeEvery, scenarios, l);
    }
  }

  lemma {:induction false} NothingFinishes<L>(b: Beliefs<L>, probeEvery: int, w: World, scenarios: seq<Scenario>, l: L)
    requires scenarios != [] && !SoundRequest(scenarios[0])
    ensures LogTo(b, probeEvery, w, scenarios, l, |scenarios|).results == []
  {
    assert LogTo(b, probeEvery, w, scenarios, l, 0) == Log(Control(0, false, l), [], None);
    ServeCases(b, probeEvery, w, 0, scenarios[0], LogTo(b, probeEvery, w, scenarios, l, 0));
    PriceableIsValid(b, l, scenarios[0]);
    hide Serve, Priceable, SoundRequest, Believed, Inputs.Valid;
    Controller.StopsForGood(b, probeEvery, w, scenarios, l, 1, |scenarios|);
  }

  lemma {:induction false} FirstUnsound(scenarios: seq<Scenario>) returns (i: nat)
    requires !SoundRequests(scenarios)
    ensures i < |scenarios| && !SoundRequest(scenarios[i]) && SoundRequests(scenarios[..i])
  {
    hide SoundRequest;
    var before := scenarios[..|scenarios| - 1];
    if SoundRequests(before) {
      i := |scenarios| - 1;
      assert forall k :: 0 <= k < i ==> before[k] == scenarios[k];
    } else {
      i := FirstUnsound(before);
      assert before[..i] == scenarios[..i];
    }
  }

  /** With a worker that always answers, the first unsound scenario stops the run, and the requests before it are lost. */
  lemma {:induction false} UnsoundLaterLosesAll<L>(b: Beliefs<L>, probeEvery: int, scenarios: seq<Scenario>, l: L)
    requires AlwaysUsable(b, l) && !SoundRequests(scenarios) && SoundRequest(scenarios[0])
    ensures !ReturnsFinished(LogTo(b, probeEvery, Answers(1.0), scenarios, l, |scenarios|))
  {
    var w := Answers(1.0);
    var i := FirstUnsound(scenarios);
    assert PositiveReplies(w);
    hide LogTo, SoundRequest, AlwaysUsable, SoundRequests;
    RunNeverRejectsBelief(b, probeEvery, w, scenarios, l, i);
    var st := LogTo(b, probeEvery, w, scenarios, l, i);
    if st.stopped.Some? {
      StoppedAt(b, probeEvery, w, scenarios, l, i);
    }
    StateIsHistory(b, probeEvery, w, scenarios, l, i);
    UnsoundStops(b, probeEvery, w, scenarios, l, i);
    Controller.StopsForGood(b, probeEvery, w, scenarios, l, i + 1, |scenarios|);
  }

  lemma UnsoundStops<L>(b: Beliefs<L>, probeEvery: int, w: World, scenarios: seq<Scenario>, l: L, i: nat)
    requires i < |scenarios| && !SoundRequest(scenarios[i]) && !w.ctxEndsBefore(i)
    requires LogTo(b, probeEvery, w, scenarios, l, i).stopped.None?
    ensures LogTo(b, probeEvery, w, scenarios, l, i + 1) ==
            LogTo(b, probeEvery, w, scenarios, l, i).(stopped := Some(BadEstimate))
  {
    var st := LogTo(b, probeEvery, w, scenarios, l, i);
    ServeCases(b, probeEvery, w, i, scenarios[i], st);
    PriceableIsValid(b, st.control.learner, scenarios[i]);
    hide Serve, SoundRequest, Believed, Inputs.Valid;
  }
}

/**
 The belief-versus-truth loop (internal/simulator/simulator.go). Decisions are
 made under what a learner believes about the network and scored under what is
 true of it.
 */
module Simulator {
  import opened Results
  import opened Scheduler
  import opened CostModel
  import opened Learning
  import opened Reals

  datatype Request = Request(prefixTokens: int, suffixTokens: int)

  datatype Worker = Worker(queue: real, prefillTokensPerSec: real)

  datatype Scenario = Scenario(
    source: Worker, destination: Worker, request: Request,
    kvBytesPerToken: real, bandwidthBytesPerSec: real, transferStartup: real)
  {
    function Inputs(startup: real): Inputs {
      CostModel.Inputs(
        source.queue, destination.queue, request.prefixTokens, request.suffixTokens,
        source.prefillTokensPerSec, destination.prefillTokensPerSec,
        kvBytesPerToken, bandwidthBytesPerSec, startup)
    }

    /** The size of the KV prefix. */
    function Bytes(): real {
      request.prefixTokens as real * kvBytesPerToken
    }

    /** What is true of this request can be scored: every true cost is defined. */
    ghost predicate Sound() {
      Inputs(transferStartup).Valid()
    }
  }

  datatype SimError = InvalidCost | NoChoice | UnknownAction | InvalidProbe

  /** The cost model, with the startup given apart so that a belief never picks up the truth's. */
  function EstimateFor(s: Scenario, startup: real): Result<seq<Candidate>, SimError> {
    match Estimate(s.Inputs(startup))
    case Ok(cs) => Ok(cs)
    case Err(_) => Err(InvalidCost)
  }

  function Lowest(cs: Result<seq<Candidate>, SimError>): Result<Candidate, SimError> {
    if cs.Err? then Err(cs.error)
    else match Choose(cs.value)
      case Ok(c) => Ok(c)
      case Err(_) => Err(NoChoice)
  }

  function Decide(s: Scenario): Result<Candidate, SimError> {
    Lowest(EstimateFor(s, 0.0))
  }

  function TtftOf(cs: seq<Candidate>, action: Action): Result<real, SimError> {
    if cs == [] then Err(UnknownAction)
    else if cs[0].action == action then Ok(cs[0].ttft)
    else TtftOf(cs[1..], action)
  }

  /** The search of the source, over the candidates in order. */
  method FindTtft(cs: seq<Candidate>, action: Action) returns (r: Result<real, SimError>)
    ensures r == TtftOf(cs, action)
    ensures r.Err? <==> forall i :: 0 <= i < |cs| ==> cs[i].action != action
    ensures r.Ok? ==> exists k :: 0 <= k < |cs| && cs[k].action == action && r.value == cs[k].ttft
                                  && forall i :: 0 <= i < k ==> cs[i].action != action
  {
    for i := 0 to |cs|
      invariant forall k :: 0 <= k < i ==> cs[k].action != action
      invariant TtftOf(cs, action) == TtftOf(cs[i..], action)
    {
      if cs[i].action == action {
        return Ok(cs[i].ttft);
      }
    }
    return Err(UnknownAction);
  }

  function ActualTTFT(truth: Scenario, action: Action): Result<real, SimError> {
    match EstimateFor(truth, truth.transferStartup)
    case Err(e) => Err(e)
    case Ok(cs) => TtftOf(cs, action)
  }

  /** The choice of a scheduler that knows the truth. */
  function BestActual(truth: Scenario): Result<Candidate, SimError> {
    Lowest(EstimateFor(truth, truth.transferStartup))
  }

  function Regret(truth: Scenario, chosen: Action): Result<real, SimError> {
    match ActualTTFT(truth, chosen)
    case Err(e) => Err(e)
    case Ok(actual) =>
      match BestActual(truth)
      case Err(e) => Err(e)
      case Ok(best) => Ok(actual - best.ttft)
  }

  /** How long moving the prefix really takes. */
  function TransferDuration(truth: Scenario): real
    requires truth.bandwidthBytesPerSec > 0.0
  {
    truth.transferStartup + truth.Bytes() / truth.bandwidthBytesPerSec
  }

  datatype Outcome = Outcome(regret: real, believed: Action, executed: Action, predicted: real, actual: real)

  /** Score one request where the policy ranked `believed` best but ran `executed`. */
  function Record(belief: Scenario, startup: real, truth: Scenario, believed: Action, executed: Action): Result<Outcome, SimError> {
    match EstimateFor(belief, startup)
    case Err(e) => Err(e)
    case Ok(cs) =>
      match TtftOf(cs, executed)
      case Err(e) => Err(e)
      case Ok(predicted) =>
        match ActualTTFT(truth, executed)
        case Err(e) => Err(e)
        case Ok(actual) =>
          match Regret(truth, executed)
          case Err(e) => Err(e)
          case Ok(regret) => Ok(Outcome(regret, believed, executed, predicted, actual))
  }

  // ---------------------------------------------------------------------------
  // RunAdaptive
  // ---------------------------------------------------------------------------

  /** 1 / secondsPerByte; the cost model rejects the infinity of a zero cost just as it rejects 0. */
  function Bandwidth(secondsPerByte: real): real {
    if secondsPerByte == 0.0 then 0.0 else 1.0 / secondsPerByte
  }

  /** The scenario as the learner believes it to be. */
  function Belief<L>(b: Beliefs<L>, l: L, truth: Scenario): Scenario {
    truth.(bandwidthBytesPerSec := Bandwidth(b.secondsPerByte(l)))
  }

  function Candidates<L>(b: Beliefs<L>, l: L, truth: Scenario): Result<seq<Candidate>, SimError> {
    EstimateFor(Belief(b, l, truth), b.startup(l))
  }

  datatype Loop<L> = Loop(sinceTransfer: int, learner: L)

  /** Where a run stands: the loop's variables, the outcomes so far, and the error that stopped it. */
  datatype RunState<L> = RunState(loop: Loop<L>, outcomes: seq<Outcome>, stopped: Option<SimError>)

  predicate Probes(probeEvery: int, sinceTransfer: int) {
    probeEvery > 0 && sinceTransfer >= probeEvery
  }

  /** One request: decide, score, and learn from an executed transfer. */
  function ServeRequest<L>(b: Beliefs<L>, probeEvery: int, report: real -> real, truth: Scenario, s: RunState<L>): RunState<L> {
    var l := s.loop.learner;
    match Lowest(Candidates(b, l, truth))
    case Err(e) => s.(stopped := Some(e))
    case Ok(choice) =>
      var action := if Probes(probeEvery, s.loop.sinceTransfer) then Transfer else choice.action;
      match Record(Belief(b, l, truth), b.startup(l), truth, choice.action, action)
      case Err(e) => s.(stopped := Some(e))
      case Ok(outcome) =>
        var loop :=
          if action != Transfer then Loop(s.loop.sinceTransfer + 1, l)
          else if truth.Bytes() > 0.0 && truth.bandwidthBytesPerSec > 0.0 then  // a recorded request has bandwidth
            Loop(0, b.observe(l, truth.Bytes(), report(TransferDuration(truth))))
          else Loop(0, l);
        RunState(loop, s.outcomes + [outcome], None)
  }

  /** The run after n requests. `observe` may depend on the request, so it covers any seeded noise. */
  function RunTo<L>(b: Beliefs<L>, probeEvery: int, observe: int -> real -> real, truths: seq<Scenario>, l: L, n: nat): RunState<L>
    requires n <= |truths|
  {
    if n == 0 then RunState(Loop(0, l), [], None)
    else
      var s := RunTo(b, probeEvery, observe, truths, l, n - 1);
      if s.stopped.Some? then s else ServeRequest(b, probeEvery, observe(n - 1), truths[n - 1], s)
  }

  method RunAdaptive<L>(learner: Learner<L>, probeEvery: int, observe: int -> real -> real, truths: seq<Scenario>)
    returns (r: Result<seq<Outcome>, SimError>)
    modifies learner
    ensures probeEvery < 0 ==> r == Err(InvalidProbe) && learner.state == old(learner.state)
    ensures probeEvery >= 0 ==>
              var s := RunTo(learner.beliefs, probeEvery, observe, truths, old(learner.state), |truths|);
              && learner.state == s.loop.learner
              && r == if s.stopped.Some? then Err(s.stopped.value) else Ok(s.outcomes)
  {
    if probeEvery < 0 {
      return Err(InvalidProbe);
    }
    hide EstimateFor, Record, Lowest, TransferDuration, Scenario.Bytes, Bandwidth;
    var sinceTransfer := 0;
    var outcomes: seq<Outcome> := [];
    ghost var l0 := learner.state;
    for i := 0 to |truths|
      invariant RunTo(learner.beliefs, probeEvery, observe, truths, l0, i) ==
                RunState(Loop(sinceTransfer, learner.state), outcomes, None)
    {
      ghost var before := RunState(Loop(sinceTransfer, learner.state), outcomes, None);
      ghost var after := ServeRequest(learner.beliefs, probeEvery, observe(i), truths[i], before);
      assert RunTo(learner.beliefs, probeEvery, observe, truths, l0, i + 1) == after;
      if after.stopped.Some? {
        StopsForGood(learner.beliefs, probeEvery, observe, truths, l0, i + 1, |truths|);
      }
      var truth := truths[i];
      var belief := truth.(bandwidthBytesPerSec := Bandwidth(learner.beliefs.secondsPerByte(learner.state)));
      var startup := learner.beliefs.startup(learner.state);
      var choice := Lowest(EstimateFor(belief, startup));
      if choice.Err? {
        return Err(choice.error);
      }
      var action := choice.value.action;
      if probeEvery > 0 && sinceTransfer >= probeEvery {
        action := Transfer;
      }
      var outcome := Record(belief, startup, truth, choice.value.action, action);
      if outcome.Err? {
        return Err(outcome.error);
      }
      RecordedHasBandwidth(belief, startup, truth, choice.value.action, action);
      outcomes := outcomes + [outcome.value];
      sinceTransfer := sinceTransfer + 1;
      if action == Transfer {
        sinceTransfer := 0;
        var bytes := truth.Bytes();
        if bytes > 0.0 {
          learner.Observe(bytes, observe(i)(TransferDuration(truth)));
        }
      }
    }
    return Ok(outcomes);
  }

  lemma {:induction false} StopsForGood<L>(b: Beliefs<L>, probeEvery: int, observe: int -> real -> real, truths: seq<Scenario>, l: L, m: nat, n: nat)
    requires m <= n <= |truths|
    requires RunTo(b, probeEvery, observe, truths, l, m).stopped.Some?
    ensures RunTo(b, probeEvery, observe, truths, l, n) == RunTo(b, probeEvery, observe, truths, l, m)
  {
    hide ServeRequest;
    if m < n {
      StopsForGood(b, probeEvery, observe, truths, l, m, n - 1);
    }
  }

  // ---------------------------------------------------------------------------
  // Three candidates
  // ---------------------------------------------------------------------------

  /** The estimate succeeds on valid inputs only, and then offers exactly the three plans. */
  lemma EstimateOffersThree(s: Scenario, startup: real)
    ensures var i := s.Inputs(startup);
            EstimateFor(s, startup) ==
            if i.Valid() then
              Ok([Candidate(Wait, i.WaitTTFT()), Candidate(Transfer, i.TransferTTFT()), Candidate(Recompute, i.RecomputeTTFT())])
            else Err(InvalidCost)
  {
  }

  /** The same of a scenario: the source waits, the destination recomputes, and both ends meet in a transfer. */
  lemma ScenarioPrices(s: Scenario, startup: real) returns (moving: real, start: real)
    requires EstimateFor(s, startup).Ok?
    ensures |EstimateFor(s, startup).value| == 3
    ensures var cs, r := EstimateFor(s, startup).value, s.request;
            && cs[0].action == Wait && cs[1].action == Transfer && cs[2].action == Recompute
            && TakesAtRate(cs[0].ttft - s.source.queue, r.suffixTokens as real, s.source.prefillTokensPerSec)
            && TakesAtRate(cs[2].ttft - s.destination.queue, (r.prefixTokens + r.suffixTokens) as real, s.destination.prefillTokensPerSec)
            && TakesAtRate(moving - startup, r.prefixTokens as real * s.kvBytesPerToken, s.bandwidthBytesPerSec)
            && StartsWhenBothDone(start, s.destination.queue, moving)
            && TakesAtRate(cs[1].ttft - start, r.suffixTokens as real, s.destination.prefillTokensPerSec)
  {
    moving, start := EstimatePrices(s.Inputs(startup));
    hide Estimate, TakesAtRate;
  }

  function TtftUnder(i: Inputs, action: Action): real
    requires i.Valid()
  {
    match action
    case Wait => i.WaitTTFT()
    case Transfer => i.TransferTTFT()
    case Recompute => i.RecomputeTTFT()
    case Other(_) => 0.0
  }

  function Cheapest(i: Inputs): Action
    requires i.Valid()
  {
    var w, t, r := i.WaitTTFT(), i.TransferTTFT(), i.RecomputeTTFT();
    if w <= t && w <= r then Wait else if t <= r then Transfer else Recompute
  }

  lemma {:induction false} TtftOfThree(w: real, t: real, r: real, action: Action)
    ensures var cs := [Candidate(Wait, w), Candidate(Transfer, t), Candidate(Recompute, r)];
            TtftOf(cs, action) ==
            match action
            case Wait => Ok(w)
            case Transfer => Ok(t)
            case Recompute => Ok(r)
            case Other(_) => Err(UnknownAction)
  {
    var cs := [Candidate(Wait, w), Candidate(Transfer, t), Candidate(Recompute, r)];
    assert cs[1..] == [Candidate(Transfer, t), Candidate(Recompute, r)];
    assert cs[1..][1..] == [Candidate(Recompute, r)];
    assert TtftOf([Candidate(Recompute, r)], action) == if action == Recompute then Ok(r) else Err(UnknownAction);
  }

  lemma LowestOfThree(s: Scenario, startup: real)
    ensures var i := s.Inputs(startup);
            Lowest(EstimateFor(s, startup)) ==
            if i.Valid() then Ok(Candidate(Cheapest(i), TtftUnder(i, Cheapest(i)))) else Err(InvalidCost)
  {
    EstimateOffersThree(s, startup);
    var i := s.Inputs(startup);
    if i.Valid() {
      ChooseOfThree(i.WaitTTFT(), i.TransferTTFT(), i.RecomputeTTFT());
    }
    hide Inputs.WaitTTFT, Inputs.TransferTTFT, Inputs.RecomputeTTFT, Inputs.Valid, Scenario.Inputs, Choose, EstimateFor;
  }

  lemma RecordIsSound(belief: Scenario, startup: real, truth: Scenario, believed: Action, executed: Action)
    ensures var i, j := belief.Inputs(startup), truth.Inputs(truth.transferStartup);
            Record(belief, startup, truth, believed, executed) ==
            if !i.Valid() then Err(InvalidCost)
            else if executed.Other? then Err(UnknownAction)
            else if !j.Valid() then Err(InvalidCost)
            else Ok(Outcome(TtftUnder(j, executed) - TtftUnder(j, Cheapest(j)), believed, executed,
                            TtftUnder(i, executed), TtftUnder(j, executed)))
  {
    var i, j := belief.Inputs(startup), truth.Inputs(truth.transferStartup);
    EstimateOffersThree(belief, startup);
    EstimateOffersThree(truth, truth.transferStartup);
    LowestOfThree(truth, truth.transferStartup);
    if i.Valid() {
      TtftOfThree(i.WaitTTFT(), i.TransferTTFT(), i.RecomputeTTFT(), executed);
    }
    if j.Valid() {
      TtftOfThree(j.WaitTTFT(), j.TransferTTFT(), j.RecomputeTTFT(), executed);
    }
    hide Inputs.WaitTTFT, Inputs.TransferTTFT, Inputs.RecomputeTTFT, Inputs.Valid, Scenario.Inputs, Choose, EstimateFor, TtftOf, Lowest, Cheapest;
  }

  lemma RecordedHasBandwidth(belief: Scenario, startup: real, truth: Scenario, believed: Action, executed: Action)
    requires Record(belief, startup, truth, believed, executed).Ok?
    ensures truth.bandwidthBytesPerSec > 0.0
  {
    RecordIsSound(belief, startup, truth, believed, executed);
    hide Record, TtftUnder, Cheapest;
  }
}

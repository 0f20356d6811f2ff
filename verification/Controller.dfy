/**
 The decision loop against a real worker (internal/controller/controller.go).
 The outside world - when ctx ends, and how the worker answers each request -
 is an arbitrary function of the request's position.
 */
module Controller {
  import opened Results
  import opened Scheduler
  import opened CostModel
  import opened Learning
  import opened Simulator

  /** The gRPC codes Run tells apart. */
  datatype Code = InvalidArgument | PermissionDenied | OtherCode(name: string)

  datatype Reply = Replied(seconds: real) | Failed(code: Code)

  /** ctxEndsBefore: ctx ended while waiting for the request's slot; ctxEnded: it had ended when the call returned. */
  datatype World = World(ctxEndsBefore: int -> bool, ctxEnded: int -> bool, reply: int -> Reply)

  datatype Config = Config(probeEvery: int, timeout: real, interval: real)

  datatype RunResult = RunResult(
    believed: Action, action: Action, predictedSeconds: real, seconds: real, err: Option<Code>)

  datatype RunError = BadProbe | BadTimeout | BadInterval | ContextEnded | CallFailed(code: Code) | BadEstimate

  /** A float64 truncated to int64. */
  function Truncate(x: real): (n: int)
    ensures x >= 0.0 ==> 0.0 <= n as real <= x < n as real + 1.0
    ensures x < 0.0 ==> n as real - 1.0 < x <= n as real <= 0.0
  {
    if x >= 0.0 then x.Floor else -(-x).Floor
  }

  function PrefixBytes(s: Scenario): int {
    Truncate(s.request.prefixTokens as real * s.kvBytesPerToken)
  }

  /** The candidates other than transfer, in order. */
  function Others(cs: seq<Candidate>): seq<Candidate> {
    if cs == [] then []
    else if cs[0].action != Action.Transfer then [cs[0]] + Others(cs[1..])
    else Others(cs[1..])
  }

  function BestWithoutTransfer(cs: seq<Candidate>): Result<Candidate, ScheduleError> {
    Choose(Others(cs))
  }

  /** k is the first of the cheapest candidates that are not transfers. */
  ghost predicate FirstLowestOther(cs: seq<Candidate>, k: int) {
    && 0 <= k < |cs| && cs[k].action != Action.Transfer
    && (forall i :: 0 <= i < k && cs[i].action != Action.Transfer ==> cs[i].ttft > cs[k].ttft)
    && (forall i :: k <= i < |cs| && cs[i].action != Action.Transfer ==> cs[i].ttft >= cs[k].ttft)
  }

  method FindBestWithoutTransfer(cs: seq<Candidate>) returns (r: Result<Candidate, ScheduleError>)
    ensures r == BestWithoutTransfer(cs)
    ensures r.Err? <==> forall i :: 0 <= i < |cs| ==> cs[i].action == Action.Transfer
    ensures r.Ok? ==> exists k :: FirstLowestOther(cs, k) && r.value == cs[k]
  {
    var others: seq<Candidate> := [];
    for i := 0 to |cs|
      invariant others + Others(cs[i..]) == Others(cs)
    {
      if cs[i].action != Action.Transfer {
        others := others + [cs[i]];
      }
    }
    assert others == Others(cs);
    r := ChooseLowestTTFT(others);
    BestOtherIsFirstLowest(cs);
  }

  /** `others` is what cs holds at the places `at`, in order: every place without a transfer and no other. */
  ghost predicate Picks(cs: seq<Candidate>, others: seq<Candidate>, at: seq<nat>) {
    && |at| == |others|
    && (forall j :: 0 <= j < |at| ==> at[j] < |cs| && others[j] == cs[at[j]] && cs[at[j]].action != Action.Transfer)
    && (forall i, j :: 0 <= i < j < |at| ==> at[i] < at[j])
    && (forall i :: 0 <= i < |cs| && cs[i].action != Action.Transfer ==> i in at)
  }

  lemma PicksOneMore(cs: seq<Candidate>, others: seq<Candidate>, at: seq<nat>, c: Candidate)
    requires Picks(cs, others, at)
    ensures if c.action != Action.Transfer then Picks(cs + [c], others + [c], at + [|cs|]) else Picks(cs + [c], others, at)
  {
    forall i | 0 <= i < |cs + [c]| && (cs + [c])[i].action != Action.Transfer
      ensures i in at + [|cs|] && (c.action == Action.Transfer ==> i in at)
    {
      assert i < |cs| ==> i in at;
    }
  }

  lemma {:induction false} OthersOneMore(cs: seq<Candidate>, c: Candidate)
    ensures Others(cs + [c]) == Others(cs) + if c.action != Action.Transfer then [c] else []
  {
    if cs != [] {
      assert (cs + [c])[1..] == cs[1..] + [c];
      OthersOneMore(cs[1..], c);
    } else {
      assert ([c])[1..] == [];
    }
  }

  /** Others keeps exactly the candidates that are not transfers, each at its place in the order. */
  lemma {:induction false} OthersKeepOrder(cs: seq<Candidate>) returns (at: seq<nat>)
    ensures Picks(cs, Others(cs), at)
  {
    hide Picks, Others;
    if cs == [] {
      at := [];
      NoOthers();
    } else {
      var before, c := cs[..|cs| - 1], cs[|cs| - 1];
      at := OthersKeepOrder(before);
      PicksOneMore(before, Others(before), at, c);
      OthersOneMore(before, c);
      assert before + [c] == cs;
      if c.action != Action.Transfer {
        at := at + [|before|];
      } else {
        assert Others(before) + [] == Others(before);
      }
    }
  }

  lemma NoOthers()
    ensures Picks([], Others([]), [])
  {
  }

  /** The best plan without transfer is the first cheapest of those left, and there is one unless all are transfers. */
  lemma BestOtherIsFirstLowest(cs: seq<Candidate>)
    ensures BestWithoutTransfer(cs).Err? <==> forall i :: 0 <= i < |cs| ==> cs[i].action == Action.Transfer
    ensures forall k :: FirstLowestOther(cs, k) ==> BestWithoutTransfer(cs) == Ok(cs[k])
    ensures BestWithoutTransfer(cs).Ok? ==> exists k :: FirstLowestOther(cs, k) && BestWithoutTransfer(cs).value == cs[k]
  {
    var at := OthersKeepOrder(cs);
    if at == [] {
      assert forall i :: 0 <= i < |cs| && cs[i].action != Action.Transfer ==> i in at;
    } else {
      hide FirstLowest;
      var j := ChooseIsFirstLowest(Others(cs));
      PickedIsFirstLowest(cs, Others(cs), at, j);
      assert FirstLowestOther(cs, at[j]) && cs[at[j]].action != Action.Transfer;
      hide FirstLowestOther;
      forall k | FirstLowestOther(cs, k)
        ensures k == at[j]
      {
        OneFirstLowestOther(cs, k, at[j]);
      }
      hide Picks, Others, Choose;
    }
  }

  lemma PickedIsFirstLowest(cs: seq<Candidate>, others: seq<Candidate>, at: seq<nat>, j: nat)
    requires Picks(cs, others, at) && FirstLowest(others, j)
    ensures FirstLowestOther(cs, at[j])
  {
    forall i | 0 <= i < |cs| && cs[i].action != Action.Transfer
      ensures if i < at[j] then cs[i].ttft > cs[at[j]].ttft else cs[i].ttft >= cs[at[j]].ttft
    {
      var n :| 0 <= n < |at| && at[n] == i;
      assert others[n] == cs[i];
    }
  }

  lemma OneFirstLowestOther(cs: seq<Candidate>, j: int, k: int)
    requires FirstLowestOther(cs, j) && FirstLowestOther(cs, k)
    ensures j == k
  {
  }

  // ---------------------------------------------------------------------------
  // One request
  // ---------------------------------------------------------------------------

  datatype Control<L> = Control(sinceTransfer: int, down: bool, learner: L)

  /** The finished requests, and what stopped the run, if anything did. */
  datatype Log<L> = Log(control: Control<L>, results: seq<RunResult>, stopped: Option<RunError>)

  datatype Decision = Decision(believed: Action, action: Action)

  function Decide<L>(b: Beliefs<L>, probeEvery: int, s: Scenario, control: Control<L>): (r: Result<Decision, RunError>)
    ensures r.Err? ==> r.error == BadEstimate
  {
    match Candidates(b, control.learner, s)
    case Err(_) => Err(BadEstimate)
    case Ok(cs) =>
      match Choose(cs)
      case Err(_) => Err(BadEstimate)
      case Ok(choice) =>
        if Probes(probeEvery, control.sinceTransfer) then Ok(Decision(choice.action, Action.Transfer))
        else if control.down && choice.action == Action.Transfer then
          match BestWithoutTransfer(cs)
          case Err(_) => Err(BadEstimate)
          case Ok(other) => Ok(Decision(choice.action, other.action))
        else Ok(Decision(choice.action, choice.action))
  }

  predicate Rejected(code: Code) {
    code == InvalidArgument || code == PermissionDenied
  }

  function Serve<L>(b: Beliefs<L>, probeEvery: int, w: World, i: int, s: Scenario, st: Log<L>): Log<L> {
    if w.ctxEndsBefore(i) then st.(stopped := Some(ContextEnded))
    else match Decide(b, probeEvery, s, st.control)
      case Err(e) => st.(stopped := Some(e))
      case Ok(d) =>
        var l := st.control.learner;
        var bytes := PrefixBytes(s);
        var result := RunResult(d.believed, d.action, b.Predict(l, bytes as real), 0.0, None);
        if d.action != Action.Transfer || bytes <= 0 then
          Log(Control(st.control.sinceTransfer + 1, st.control.down, l), st.results + [result], None)
        else match w.reply(i)
          case Replied(seconds) =>
            Log(Control(0, false, b.observe(l, bytes as real, seconds)), st.results + [result.(seconds := seconds)], None)
          case Failed(code) =>
            if w.ctxEnded(i) || Rejected(code) then st.(stopped := Some(CallFailed(code)))
            else Log(Control(0, true, l), st.results + [result.(err := Some(code))], None)
  }

  function LogTo<L>(b: Beliefs<L>, probeEvery: int, w: World, scenarios: seq<Scenario>, l: L, n: nat): Log<L>
    requires n <= |scenarios|
  {
    if n == 0 then Log(Control(0, false, l), [], None)
    else
      var st := LogTo(b, probeEvery, w, scenarios, l, n - 1);
      if st.stopped.Some? then st else Serve(b, probeEvery, w, n - 1, scenarios[n - 1], st)
  }

  lemma {:induction false} StopsForGood<L>(b: Beliefs<L>, probeEvery: int, w: World, scenarios: seq<Scenario>, l: L, m: nat, n: nat)
    requires m <= n <= |scenarios|
    requires LogTo(b, probeEvery, w, scenarios, l, m).stopped.Some?
    ensures LogTo(b, probeEvery, w, scenarios, l, n) == LogTo(b, probeEvery, w, scenarios, l, m)
  {
    hide Serve;
    if m < n {
      StopsForGood(b, probeEvery, w, scenarios, l, m, n - 1);
    }
  }

  lemma {:induction false} LogStarts<L>(b: Beliefs<L>, probeEvery: int, w: World, scenarios: seq<Scenario>, l: L)
    ensures LogTo(b, probeEvery, w, scenarios, l, 0) == Log(Control(0, false, l), [], None)
  {
  }

  /** One more request of a run that goes on; if it stops the run, that is how the run ends. */
  lemma {:induction false} LogGoesOn<L>(b: Beliefs<L>, probeEvery: int, w: World, scenarios: seq<Scenario>, l: L, i: nat)
    requires i < |scenarios| && LogTo(b, probeEvery, w, scenarios, l, i).stopped.None?
    ensures var after := Serve(b, probeEvery, w, i, scenarios[i], LogTo(b, probeEvery, w, scenarios, l, i));
            && LogTo(b, probeEvery, w, scenarios, l, i + 1) == after
            && (after.stopped.Some? ==> LogTo(b, probeEvery, w, scenarios, l, |scenarios|) == after)
  {
    hide Serve;
    var after := Serve(b, probeEvery, w, i, scenarios[i], LogTo(b, probeEvery, w, scenarios, l, i));
    assert LogTo(b, probeEvery, w, scenarios, l, i + 1) == after;
    if after.stopped.Some? {
      StopsForGood(b, probeEvery, w, scenarios, l, i + 1, |scenarios|);
    }
  }

  /** The ways one request can go, given what was decided. */
  lemma ServeUnfolds<L>(b: Beliefs<L>, probeEvery: int, w: World, i: int, s: Scenario, st: Log<L>)
    ensures var t, d, bytes, l := Serve(b, probeEvery, w, i, s, st), Decide(b, probeEvery, s, st.control), PrefixBytes(s), st.control.learner;
            if w.ctxEndsBefore(i) then t == st.(stopped := Some(ContextEnded))
            else if d.Err? then t == st.(stopped := Some(BadEstimate))
            else
              var result := RunResult(d.value.believed, d.value.action, b.Predict(l, bytes as real), 0.0, None);
              if d.value.action != Action.Transfer || bytes <= 0 then
                t == Log(Control(st.control.sinceTransfer + 1, st.control.down, l), st.results + [result], None)
              else match w.reply(i)
                case Replied(seconds) =>
                  t == Log(Control(0, false, b.observe(l, bytes as real, seconds)), st.results + [result.(seconds := seconds)], None)
                case Failed(code) =>
                  if w.ctxEnded(i) || code == InvalidArgument || code == PermissionDenied
                  then t == st.(stopped := Some(CallFailed(code)))
                  else t == Log(Control(0, true, l), st.results + [result.(err := Some(code))], None)
  {
    hide Decide, PrefixBytes, Beliefs.Predict;
  }

  /** What Run hands back: nothing for a bad estimate, otherwise the finished requests, with the error if it stopped. */
  function Returned<L>(st: Log<L>): (seq<RunResult>, Option<RunError>) {
    if st.stopped == Some(BadEstimate) then ([], st.stopped) else (st.results, st.stopped)
  }

  /** The part of Run that chooses: the believed best plan, and the one to take. */
  method DecideRequest<L>(learner: Learner<L>, probeEvery: int, s: Scenario, sinceTransfer: int, down: bool)
    returns (r: Result<Decision, RunError>)
    ensures r == Decide(learner.beliefs, probeEvery, s, Control(sinceTransfer, down, learner.state))
  {
    hide BestWithoutTransfer;
    var candidates := Candidates(learner.beliefs, learner.state, s);
    if candidates.Err? {
      return Err(BadEstimate);
    }
    var choice := ChooseLowestTTFT(candidates.value);
    if choice.Err? {
      return Err(BadEstimate);
    }
    var action := choice.value.action;
    if probeEvery > 0 && sinceTransfer >= probeEvery {
      action := Action.Transfer;
    } else if down && action == Action.Transfer {
      var other := FindBestWithoutTransfer(candidates.value);
      if other.Err? {
        return Err(BadEstimate);
      }
      action := other.value.action;
    }
    return Ok(Decision(choice.value.action, action));
  }

  /** The call of one request: the learner is taught a success, a failure is recorded, and an error ends the run. */
  method CallWorker<L>(learner: Learner<L>, w: World, i: int, bytes: Positive, result: RunResult) returns (r: Result<RunResult, Code>)
    requires result.seconds == 0.0 && result.err == None
    modifies learner
    ensures match w.reply(i)
            case Replied(seconds) =>
              r == Ok(result.(seconds := seconds)) && learner.state == learner.beliefs.observe(old(learner.state), bytes, seconds)
            case Failed(code) =>
              && learner.state == old(learner.state)
              && r == if w.ctxEnded(i) || code == InvalidArgument || code == PermissionDenied then Err(code) else Ok(result.(err := Some(code)))
  {
    match w.reply(i) {
      case Failed(code) =>
        if w.ctxEnded(i) {
          return Err(code);
        }
        if code == InvalidArgument || code == PermissionDenied {
          return Err(code);
        }
        return Ok(result.(err := Some(code)));
      case Replied(seconds) =>
        learner.Observe(bytes, seconds);
        return Ok(result.(seconds := seconds));
    }
  }

  /** The loop of Run, under a config that is valid. */
  method ServeRequests<L>(learner: Learner<L>, scenarios: seq<Scenario>, probeEvery: int, w: World)
    returns (r: (seq<RunResult>, Option<RunError>))
    modifies learner
    ensures var st := LogTo(learner.beliefs, probeEvery, w, scenarios, old(learner.state), |scenarios|);
            r == Returned(st) && learner.state == st.control.learner
  {
    hide Decide, PrefixBytes, Beliefs.Predict, Serve, LogTo;
    ghost var b, l0 := learner.beliefs, learner.state;
    var sinceTransfer, down := 0, false;
    var results := new RunResult[|scenarios|];
    LogStarts(b, probeEvery, w, scenarios, l0);
    assert results[..0] == [];
    for i := 0 to |scenarios|
      invariant LogTo(b, probeEvery, w, scenarios, l0, i) ==
                Log(Control(sinceTransfer, down, learner.state), results[..i], None)
      modifies learner, results
    {
      ghost var before := Log(Control(sinceTransfer, down, learner.state), results[..i], None);
      ghost var after := Serve(b, probeEvery, w, i, scenarios[i], before);
      LogGoesOn(b, probeEvery, w, scenarios, l0, i);
      ServeUnfolds(b, probeEvery, w, i, scenarios[i], before);
      if w.ctxEndsBefore(i) {
        return (results[..i], Some(ContextEnded));
      }
      var decision := DecideRequest(learner, probeEvery, scenarios[i], sinceTransfer, down);
      if decision.Err? {
        return ([], Some(decision.error));
      }
      var action := decision.value.action;
      var bytes := PrefixBytes(scenarios[i]);
      results[i] := RunResult(decision.value.believed, action, learner.beliefs.Predict(learner.state, bytes as real), 0.0, None);
      sinceTransfer := sinceTransfer + 1;
      if action == Action.Transfer && bytes > 0 {
        sinceTransfer := 0;
        var called := CallWorker(learner, w, i, bytes as real, results[i]);
        if called.Err? {
          return (results[..i], Some(CallFailed(called.error)));
        }
        results[i] := called.value;
        down := called.value.err.Some?;
      }
      assert results[..i + 1] == before.results + [results[i]];
    }
    assert results[..|scenarios|] == results[..];
    return (results[..], None);
  }

  method Run<L>(learner: Learner<L>, scenarios: seq<Scenario>, cfg: Config, w: World)
    returns (r: (seq<RunResult>, Option<RunError>))
    modifies learner
    ensures cfg.probeEvery < 0 ==> r == ([], Some(BadProbe))
    ensures cfg.probeEvery >= 0 && cfg.timeout <= 0.0 ==> r == ([], Some(BadTimeout))
    ensures cfg.probeEvery >= 0 && cfg.timeout > 0.0 && cfg.interval < 0.0 ==> r == ([], Some(BadInterval))
    ensures cfg.probeEvery < 0 || cfg.timeout <= 0.0 || cfg.interval < 0.0 ==> learner.state == old(learner.state)
    ensures cfg.probeEvery >= 0 && cfg.timeout > 0.0 && cfg.interval >= 0.0 ==>
              var st := LogTo(learner.beliefs, cfg.probeEvery, w, scenarios, old(learner.state), |scenarios|);
              r == Returned(st) && learner.state == st.control.learner
  {
    if cfg.probeEvery < 0 {
      return ([], Some(BadProbe));
    }
    if cfg.timeout <= 0.0 {
      return ([], Some(BadTimeout));
    }
    if cfg.interval < 0.0 {
      return ([], Some(BadInterval));
    }
    r := ServeRequests(learner, scenarios, cfg.probeEvery, w);
  }
}

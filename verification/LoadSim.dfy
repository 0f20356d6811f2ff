/**
 The loaders raced through a recorded network (internal/loadsim/loadsim.go):
 one-at-a-time loaders (Fixed, Oracle, Chunked) and the two-sided race of Cake.

 Main results: Oracle is the best of all one-at-a-time schedules, Cake is the
 best of all splits, and the two are within a factor of two of each other.
 */
module LoadSim {
  import opened NetTrace
  import opened Learning

  datatype Load = Load(chunks: int, chunkBytes: real, chunkCompute: real)

  function Times(n: int, x: real): real {
    n as real * x
  }

  lemma TimesSucc(n: int, x: real)
    ensures Times(0, x) == 0.0
    ensures Times(n + 1, x) == Times(n, x) + x
  {
  }

  lemma TimesMonotone(m: int, n: int, x: real)
    requires m <= n && x >= 0.0
    ensures Times(m, x) <= Times(n, x)
  {
    assert Times(n, x) - Times(m, x) == (n - m) as real * x;
  }

  function Min(x: real, y: real): real {
    if x <= y then x else y
  }

  function Max(x: real, y: real): real {
    if x <= y then y else x
  }

  // ---------------------------------------------------------------------------
  // One-at-a-time schedules
  // ---------------------------------------------------------------------------

  /** One chunk of a schedule: after idling, load it or recompute it. */
  datatype Move = Move(idle: real, load: bool)

  ghost predicate Schedule(moves: seq<Move>) {
    forall i :: 0 <= i < |moves| ==> moves[i].idle >= 0.0
  }

  /** When a chunk that starts at `now` is ready. */
  function ChunkDone(t: Trace, ld: Load, now: real, load: bool): real
    requires t.Valid()
  {
    now + if load then SendTime(t, now, ld.chunkBytes) else ld.chunkCompute
  }

  /** When the last chunk of a schedule that starts at `at` is ready. */
  function ScheduleDone(t: Trace, ld: Load, at: real, moves: seq<Move>): real
    requires t.Valid()
  {
    if moves == [] then at
    else
      var last := moves[|moves| - 1];
      ChunkDone(t, ld, ScheduleDone(t, ld, at, moves[..|moves| - 1]) + last.idle, last.load)
  }

  /** How many of the chunks are loaded. */
  function Loaded(moves: seq<Move>): (n: nat)
    ensures n <= |moves|
  {
    if moves == [] then 0
    else Loaded(moves[..|moves| - 1]) + if moves[|moves| - 1].load then 1 else 0
  }

  /** What a schedule's loads show: each one's size and the time it took, in order. */
  ghost function LoadsShown(t: Trace, ld: Load, at: real, moves: seq<Move>): seq<Sample>
    requires t.Valid() && ld.chunkBytes > 0.0
  {
    if moves == [] then []
    else
      var before, last := moves[..|moves| - 1], moves[|moves| - 1];
      var start := ScheduleDone(t, ld, at, before) + last.idle;
      LoadsShown(t, ld, at, before) +
      if last.load then [Sample(ld.chunkBytes, SendTime(t, start, ld.chunkBytes))] else []
  }

  /** How many chunks the schedule has recomputed since its last load. */
  function SinceLoad(moves: seq<Move>): nat {
    if moves == [] || moves[|moves| - 1].load then 0 else SinceLoad(moves[..|moves| - 1]) + 1
  }

  lemma {:induction false} ScheduleSnoc(t: Trace, ld: Load, at: real, moves: seq<Move>, m: Move)
    requires t.Valid()
    ensures ScheduleDone(t, ld, at, moves + [m]) == ChunkDone(t, ld, ScheduleDone(t, ld, at, moves) + m.idle, m.load)
    ensures Loaded(moves + [m]) == Loaded(moves) + if m.load then 1 else 0
    ensures SinceLoad(moves + [m]) == if m.load then 0 else SinceLoad(moves) + 1
    ensures ld.chunkBytes > 0.0 ==>
              LoadsShown(t, ld, at, moves + [m]) ==
              LoadsShown(t, ld, at, moves) +
              if m.load then [Sample(ld.chunkBytes, SendTime(t, ScheduleDone(t, ld, at, moves) + m.idle, ld.chunkBytes))] else []
  {
    hide SendTime, ChunkDone;
    assert (moves + [m])[..|moves|] == moves;
  }

  /** k chunks treated alike, without idling. */
  function Repeat(load: bool, k: nat): (moves: seq<Move>)
    ensures |moves| == k && Schedule(moves)
    ensures forall i :: 0 <= i < k ==> moves[i] == Move(0.0, load)
  {
    seq(k, _ => Move(0.0, load))
  }

  lemma {:induction false} RepeatDone(t: Trace, ld: Load, at: real, before: seq<Move>, load: bool, k: nat)
    requires t.Valid() && ld.chunkBytes >= 0.0
    ensures var now := ScheduleDone(t, ld, at, before);
            ScheduleDone(t, ld, at, before + Repeat(load, k)) ==
            now + if load then SendTime(t, now, Times(k, ld.chunkBytes)) else Times(k, ld.chunkCompute)
  {
    hide Times, SendTime, ScheduleDone, Loaded;
    var now := ScheduleDone(t, ld, at, before);
    if k == 0 {
      assert before + Repeat(load, 0) == before;
      TimesSucc(0, ld.chunkBytes);
      TimesSucc(0, ld.chunkCompute);
      SendNothing(t, now);
    } else {
      RepeatDone(t, ld, at, before, load, k - 1);
      assert Repeat(load, k) == Repeat(load, k - 1) + [Move(0.0, load)];
      assert before + Repeat(load, k) == before + Repeat(load, k - 1) + [Move(0.0, load)];
      hide Repeat;
      ScheduleSnoc(t, ld, at, before + Repeat(load, k - 1), Move(0.0, load));
      TimesSucc(k - 1, ld.chunkBytes);
      TimesSucc(k - 1, ld.chunkCompute);
      TimesSign(k - 1, ld.chunkBytes);
      SendTimeAdds(t, now, Times(k - 1, ld.chunkBytes), ld.chunkBytes);
    }
  }

  lemma TimesSign(n: nat, x: real)
    requires x >= 0.0
    ensures Times(n, x) >= 0.0
  {
  }

  lemma SendNothing(t: Trace, at: real)
    requires t.Valid()
    ensures SendTime(t, at, 0.0) == 0.0
  {
    SendTimeAdds(t, at, 0.0, 0.0);
    SendTimeDelivers(t, at, 0.0);
    DeliveredSplits(t, at, at, at);
    SendTimeIsInverse(t, at, at);
  }

  // ---------------------------------------------------------------------------
  // Fixed
  // ---------------------------------------------------------------------------

  method FixedLoad(recompute: bool, t: Trace, at: real, ld: Load) returns (took: real)
    requires t.Valid() && ld.chunks >= 0 && ld.chunkBytes >= 0.0
    ensures at + took == ScheduleDone(t, ld, at, Repeat(!recompute, ld.chunks))
    ensures recompute ==> took == Times(ld.chunks, ld.chunkCompute)
    ensures !recompute ==> Delivered(t, at, at + took) == Times(ld.chunks, ld.chunkBytes)
    ensures OracleDone(t, ld, at, ld.chunks) <= at + took
  {
    TimesSign(ld.chunks, ld.chunkBytes);
    OracleIsBest(t, ld, at, Repeat(!recompute, ld.chunks));
    RepeatDone(t, ld, at, [], !recompute, ld.chunks);
    assert [] + Repeat(!recompute, ld.chunks) == Repeat(!recompute, ld.chunks);
    if recompute {
      return Times(ld.chunks, ld.chunkCompute);
    }
    took := Send(t, at, Times(ld.chunks, ld.chunkBytes));
  }

  // ---------------------------------------------------------------------------
  // Oracle
  // ---------------------------------------------------------------------------

  /** When Oracle has done n chunks. */
  function OracleDone(t: Trace, ld: Load, at: real, n: nat): real
    requires t.Valid()
  {
    if n == 0 then at
    else
      var now := OracleDone(t, ld, at, n - 1);
      now + Min(SendTime(t, now, ld.chunkBytes), ld.chunkCompute)
  }

  method OracleLoad(t: Trace, at: real, ld: Load) returns (took: real)
    requires t.Valid() && ld.chunks >= 0 && ld.chunkBytes >= 0.0
    ensures at + took == OracleDone(t, ld, at, ld.chunks)
    ensures forall moves :: Schedule(moves) && |moves| == ld.chunks ==> at + took <= ScheduleDone(t, ld, at, moves)
    ensures exists moves :: Schedule(moves) && |moves| == ld.chunks && at + took == ScheduleDone(t, ld, at, moves)
  {
    var now := at;
    for i := 0 to ld.chunks
      invariant now == OracleDone(t, ld, at, i)
    {
      var send := Send(t, now, ld.chunkBytes);
      now := now + Min(send, ld.chunkCompute);
    }
    forall moves | Schedule(moves) && |moves| == ld.chunks
      ensures OracleDone(t, ld, at, ld.chunks) <= ScheduleDone(t, ld, at, moves)
    {
      OracleIsBest(t, ld, at, moves);
    }
    ghost var best := OracleIsASchedule(t, ld, at, ld.chunks);
    took := now - at;
  }

  /** Greedy is globally optimal: no schedule of the same chunks, idling or not, is ever ahead of Oracle. */
  lemma {:induction false} OracleIsBest(t: Trace, ld: Load, at: real, moves: seq<Move>)
    requires t.Valid() && ld.chunkBytes >= 0.0 && Schedule(moves)
    ensures OracleDone(t, ld, at, |moves|) <= ScheduleDone(t, ld, at, moves)
  {
    hide SendTime;
    if moves != [] {
      var n := |moves| - 1;
      OracleIsBest(t, ld, at, moves[..n]);
      var start := ScheduleDone(t, ld, at, moves[..n]) + moves[n].idle;
      SendTimeNeverOvertakes(t, OracleDone(t, ld, at, n), start, ld.chunkBytes);
    }
  }

  lemma {:induction false} OracleIsASchedule(t: Trace, ld: Load, at: real, n: nat) returns (moves: seq<Move>)
    requires t.Valid()
    ensures Schedule(moves) && |moves| == n
    ensures ScheduleDone(t, ld, at, moves) == OracleDone(t, ld, at, n)
  {
    hide SendTime;
    if n == 0 {
      moves := [];
    } else {
      var before := OracleIsASchedule(t, ld, at, n - 1);
      var now := OracleDone(t, ld, at, n - 1);
      var m := Move(0.0, SendTime(t, now, ld.chunkBytes) <= ld.chunkCompute);
      ScheduleSnoc(t, ld, at, before, m);
      moves := before + [m];
    }
  }

  /** Requests that start later are never done earlier. */
  lemma {:induction false} OracleNeverOvertakes(t: Trace, ld: Load, at1: real, at2: real, n: nat)
    requires t.Valid() && ld.chunkBytes >= 0.0 && at1 <= at2
    ensures OracleDone(t, ld, at1, n) <= OracleDone(t, ld, at2, n)
  {
    hide SendTime;
    if n > 0 {
      OracleNeverOvertakes(t, ld, at1, at2, n - 1);
      SendTimeNeverOvertakes(t, OracleDone(t, ld, at1, n - 1), OracleDone(t, ld, at2, n - 1), ld.chunkBytes);
    }
  }

  // ---------------------------------------------------------------------------
  // Chunked
  // ---------------------------------------------------------------------------

  datatype ChunkedState<L> = ChunkedState(now: real, learner: L, sinceLoad: int)

  predicate WantsLoad<L>(b: Beliefs<L>, probeEvery: int, ld: Load, s: ChunkedState<L>) {
    b.Predict(s.learner, ld.chunkBytes) < ld.chunkCompute || (probeEvery > 0 && s.sinceLoad >= probeEvery)
  }

  function ChunkedStep<L>(b: Beliefs<L>, probeEvery: int, t: Trace, ld: Load, s: ChunkedState<L>): ChunkedState<L>
    requires t.Valid() && ld.chunkBytes > 0.0
  {
    if !WantsLoad(b, probeEvery, ld, s) then
      ChunkedState(s.now + ld.chunkCompute, s.learner, s.sinceLoad + 1)
    else
      var took := SendTime(t, s.now, ld.chunkBytes);
      ChunkedState(s.now + took, b.observe(s.learner, ld.chunkBytes, took), 0)
  }

  function ChunkedRun<L>(b: Beliefs<L>, probeEvery: int, t: Trace, ld: Load, s: ChunkedState<L>, n: nat): ChunkedState<L>
    requires t.Valid() && ld.chunkBytes > 0.0
  {
    if n == 0 then s else ChunkedStep(b, probeEvery, t, ld, ChunkedRun(b, probeEvery, t, ld, s, n - 1))
  }

  class Chunked<L> {
    const learner: Learner<L>
    const probeEvery: int
    var sinceLoad: int

    constructor (learner: Learner<L>, probeEvery: int)
      ensures this.learner == learner && this.probeEvery == probeEvery && sinceLoad == 0
    {
      this.learner := learner;
      this.probeEvery := probeEvery;
      sinceLoad := 0;
    }

    /** The learner and the probe count carry over to the next request. */
    method LoadChunks(t: Trace, at: real, ld: Load) returns (took: real)
      requires t.Valid() && ld.chunks >= 0 && ld.chunkBytes > 0.0
      modifies this`sinceLoad, learner
      ensures ChunkedState(at + took, learner.state, sinceLoad) ==
              ChunkedRun(learner.beliefs, probeEvery, t, ld, ChunkedState(at, old(learner.state), old(sinceLoad)), ld.chunks)
      ensures OracleDone(t, ld, at, ld.chunks) <= at + took
      ensures exists moves :: Schedule(moves) && |moves| == ld.chunks
                && Follows(learner.beliefs, t, ld, ChunkedState(at, old(learner.state), old(sinceLoad)),
                           ChunkedState(at + took, learner.state, sinceLoad), moves)
    {
      ghost var start := ChunkedState(at, learner.state, sinceLoad);
      var now := at;
      for i := 0 to ld.chunks
        invariant ChunkedState(now, learner.state, sinceLoad) ==
                  ChunkedRun(learner.beliefs, probeEvery, t, ld, start, i)
      {
        var predicted := learner.beliefs.Predict(learner.state, ld.chunkBytes);
        var load := predicted < ld.chunkCompute || (probeEvery > 0 && sinceLoad >= probeEvery);
        if !load {
          now := now + ld.chunkCompute;
          sinceLoad := sinceLoad + 1;
        } else {
          var sent := Send(t, now, ld.chunkBytes);
          learner.Observe(ld.chunkBytes, sent);
          now := now + sent;
          sinceLoad := 0;
        }
      }
      took := now - at;
      ghost var moves := ChunkedIsASchedule(learner.beliefs, probeEvery, t, ld, start, ld.chunks);
      OracleIsBest(t, ld, at, moves);
    }
  }

  /** One chunk of Chunked is one move of a schedule, observed if it is a load. */
  lemma ChunkedStepIsAMove<L>(b: Beliefs<L>, probeEvery: int, t: Trace, ld: Load, s: ChunkedState<L>)
    requires t.Valid() && ld.chunkBytes > 0.0
    ensures var load, s' := WantsLoad(b, probeEvery, ld, s), ChunkedStep(b, probeEvery, t, ld, s);
            && s'.now == ChunkDone(t, ld, s.now + 0.0, load)
            && s'.learner == (if load then b.observe(s.learner, ld.chunkBytes, SendTime(t, s.now + 0.0, ld.chunkBytes)) else s.learner)
            && s'.sinceLoad == if load then 0 else s.sinceLoad + 1
  {
    hide SendTime, WantsLoad;
    assert s.now + 0.0 == s.now;
  }

  /**
   What a schedule makes of a loader's state: the time is that of the schedule, the
   learner is what its loads taught, in order, and the probe count is the number of
   chunks since the last load.
   */
  ghost predicate Follows<L>(b: Beliefs<L>, t: Trace, ld: Load, s: ChunkedState<L>, s': ChunkedState<L>, moves: seq<Move>)
    requires t.Valid() && ld.chunkBytes > 0.0
  {
    && s'.now == ScheduleDone(t, ld, s.now, moves)
    && s'.learner == b.Taught(s.learner, LoadsShown(t, ld, s.now, moves))
    && s'.sinceLoad == SinceLoad(moves) + if Loaded(moves) == 0 then s.sinceLoad else 0
  }

  lemma {:induction false} FollowsOneMore<L>(
    b: Beliefs<L>, t: Trace, ld: Load, s: ChunkedState<L>, s': ChunkedState<L>, s'': ChunkedState<L>, moves: seq<Move>, load: bool)
    requires t.Valid() && ld.chunkBytes > 0.0 && Follows(b, t, ld, s, s', moves)
    requires s''.now == ChunkDone(t, ld, s'.now + 0.0, load)
    requires s''.learner == if load then b.observe(s'.learner, ld.chunkBytes, SendTime(t, s'.now + 0.0, ld.chunkBytes)) else s'.learner
    requires s''.sinceLoad == if load then 0 else s'.sinceLoad + 1
    ensures Follows(b, t, ld, s, s'', moves + [Move(0.0, load)])
  {
    hide SendTime, ChunkDone;
    ScheduleSnoc(t, ld, s.now, moves, Move(0.0, load));
    hide ScheduleDone, LoadsShown, Loaded, SinceLoad;
    if load {
      b.TaughtOneMore(s.learner, LoadsShown(t, ld, s.now, moves), Sample(ld.chunkBytes, SendTime(t, s'.now + 0.0, ld.chunkBytes)));
    } else {
      assert LoadsShown(t, ld, s.now, moves) + [] == LoadsShown(t, ld, s.now, moves);
    }
    hide Beliefs.Taught;
  }

  /** Whatever the learner, the belief and the probe setting, Chunked follows one of the schedules without idling. */
  lemma {:induction false} ChunkedIsASchedule<L>(
    b: Beliefs<L>, probeEvery: int, t: Trace, ld: Load, s: ChunkedState<L>, n: nat) returns (moves: seq<Move>)
    requires t.Valid() && ld.chunkBytes > 0.0
    ensures |moves| == n && forall i :: 0 <= i < n ==> moves[i].idle == 0.0
    ensures Schedule(moves) && Follows(b, t, ld, s, ChunkedRun(b, probeEvery, t, ld, s, n), moves)
  {
    hide SendTime, ChunkDone, ChunkedStep, WantsLoad;
    if n == 0 {
      moves := [];
    } else {
      hide Follows;
      var before := ChunkedIsASchedule(b, probeEvery, t, ld, s, n - 1);
      var now := ChunkedRun(b, probeEvery, t, ld, s, n - 1);
      ChunkedStepIsAMove(b, probeEvery, t, ld, now);
      var load := WantsLoad(b, probeEvery, ld, now);
      FollowsOneMore(b, t, ld, s, now, ChunkedStep(b, probeEvery, t, ld, now), before, load);
      moves := before + [Move(0.0, load)];
    }
  }

  function Abs(x: real): real {
    if x < 0.0 then -x else x
  }

  predicate ProbeDue(probeEvery: int, sinceLoad: int) {
    probeEvery > 0 && sinceLoad >= probeEvery
  }

  /**
   A belief costs no more than its error. A chunk that no probe forces is ready
   within the error of the predicted load time of the better of loading and
   recomputing it; it is loaded exactly when loading is believed strictly faster,
   or a probe is due.
   */
  lemma {:induction false} ChunkedIsNearBest<L>(b: Beliefs<L>, probeEvery: int, t: Trace, ld: Load, s: ChunkedState<L>, n: nat)
    requires t.Valid() && ld.chunkBytes > 0.0 && s.sinceLoad >= 0
    ensures var now, next := ChunkedRun(b, probeEvery, t, ld, s, n), ChunkedRun(b, probeEvery, t, ld, s, n + 1);
            var send, predicted := SendTime(t, now.now, ld.chunkBytes), b.Predict(now.learner, ld.chunkBytes);
            && (next.sinceLoad == 0 <==> predicted < ld.chunkCompute || ProbeDue(probeEvery, now.sinceLoad))
            && (!ProbeDue(probeEvery, now.sinceLoad) ==>
                  next.now - now.now <= Min(send, ld.chunkCompute) + Abs(predicted - send))
  {
    hide SendTime, Beliefs.Predict;
    var now := ChunkedRun(b, probeEvery, t, ld, s, n);
    ChunkedRunOneMore(b, probeEvery, t, ld, s, n);
    CountStaysNonNegative(b, probeEvery, t, ld, s, n);
    hide ChunkedRun;
    CostOfBelief(b.Predict(now.learner, ld.chunkBytes), SendTime(t, now.now, ld.chunkBytes), ld.chunkCompute);
  }

  /** Choosing the smaller by a wrong value of one costs no more than the error. */
  lemma CostOfBelief(predicted: real, send: real, compute: real)
    ensures (if predicted < compute then send else compute) <= Min(send, compute) + Abs(predicted - send)
  {
  }

  lemma {:induction false} ChunkedRunOneMore<L>(b: Beliefs<L>, probeEvery: int, t: Trace, ld: Load, s: ChunkedState<L>, n: nat)
    requires t.Valid() && ld.chunkBytes > 0.0
    ensures ChunkedRun(b, probeEvery, t, ld, s, n + 1) == ChunkedStep(b, probeEvery, t, ld, ChunkedRun(b, probeEvery, t, ld, s, n))
  {
    hide ChunkedStep;
  }

  lemma {:induction false} CountStaysNonNegative<L>(b: Beliefs<L>, probeEvery: int, t: Trace, ld: Load, s: ChunkedState<L>, n: nat)
    requires t.Valid() && ld.chunkBytes > 0.0 && s.sinceLoad >= 0
    ensures ChunkedRun(b, probeEvery, t, ld, s, n).sinceLoad >= 0
  {
    hide ChunkedStep, SendTime;
    var moves := ChunkedIsASchedule(b, probeEvery, t, ld, s, n);
  }

  /** The belief is right about the next chunk, and no probe overrides it. */
  ghost predicate ExactNow<L>(b: Beliefs<L>, probeEvery: int, t: Trace, ld: Load, s: ChunkedState<L>)
    requires t.Valid() && ld.chunkBytes > 0.0
  {
    b.Predict(s.learner, ld.chunkBytes) == SendTime(t, s.now, ld.chunkBytes) && !ProbeDue(probeEvery, s.sinceLoad)
  }

  lemma ExactStepIsBest<L>(b: Beliefs<L>, probeEvery: int, t: Trace, ld: Load, s: ChunkedState<L>)
    requires t.Valid() && ld.chunkBytes > 0.0 && ExactNow(b, probeEvery, t, ld, s)
    ensures ChunkedStep(b, probeEvery, t, ld, s).now == s.now + Min(SendTime(t, s.now, ld.chunkBytes), ld.chunkCompute)
  {
    hide SendTime, Beliefs.Predict;
  }

  /** A loader that is right about every chunk is as fast as one that knows the network. */
  lemma {:induction false} ExactChunkedIsOracle<L>(b: Beliefs<L>, probeEvery: int, t: Trace, ld: Load, s: ChunkedState<L>, n: nat)
    requires t.Valid() && ld.chunkBytes > 0.0
    requires forall i: nat :: i < n ==> ExactNow(b, probeEvery, t, ld, ChunkedRun(b, probeEvery, t, ld, s, i))
    ensures ChunkedRun(b, probeEvery, t, ld, s, n).now == OracleDone(t, ld, s.now, n)
  {
    hide SendTime, ChunkedStep, ExactNow;
    if n > 0 {
      ExactChunkedIsOracle(b, probeEvery, t, ld, s, n - 1);
      ExactStepIsBest(b, probeEvery, t, ld, ChunkedRun(b, probeEvery, t, ld, s, n - 1));
    }
  }

  /** Probing bounds the run of recomputed chunks, across requests too. */
  lemma {:induction false} ProbesAreSpaced<L>(b: Beliefs<L>, probeEvery: int, t: Trace, ld: Load, s: ChunkedState<L>, n: nat)
    requires t.Valid() && ld.chunkBytes > 0.0 && probeEvery > 0
    requires 0 <= s.sinceLoad <= probeEvery
    ensures 0 <= ChunkedRun(b, probeEvery, t, ld, s, n).sinceLoad <= probeEvery
  {
    if n > 0 {
      ProbesAreSpaced(b, probeEvery, t, ld, s, n - 1);
    }
  }

  /** Without probes, a learner that once prefers recomputing never loads again. */
  lemma {:induction false} NoProbeNoRecovery<L>(b: Beliefs<L>, t: Trace, ld: Load, s: ChunkedState<L>, n: nat)
    requires t.Valid() && ld.chunkBytes > 0.0
    requires !WantsLoad(b, 0, ld, s)
    ensures !WantsLoad(b, 0, ld, ChunkedRun(b, 0, t, ld, s, n))
    ensures ChunkedRun(b, 0, t, ld, s, n) == ChunkedState(s.now + Times(n, ld.chunkCompute), s.learner, s.sinceLoad + n)
  {
    hide Times;
    TimesSucc(n - 1, ld.chunkCompute);
    if n > 0 {
      NoProbeNoRecovery(b, t, ld, s, n - 1);
    }
  }

  // ---------------------------------------------------------------------------
  // Cake
  // ---------------------------------------------------------------------------

  /** How long a load takes when k chunks are recomputed while the others load. */
  function SplitTime(t: Trace, ld: Load, at: real, k: int): real
    requires t.Valid()
  {
    Max(Times(k, ld.chunkCompute), SendTime(t, at, Times(ld.chunks - k, ld.chunkBytes)))
  }

  ghost predicate BestSplit(t: Trace, ld: Load, at: real, k: int)
    requires t.Valid()
  {
    && 0 <= k <= ld.chunks
    && forall j :: 0 <= j <= ld.chunks ==> SplitTime(t, ld, at, k) <= SplitTime(t, ld, at, j)
  }

  /** The two-sided race stops, at the best of all splits. */
  method CakeLoad(t: Trace, at: real, ld: Load) returns (took: real, ghost split: int)
    requires t.Valid() && ld.chunks >= 1 && ld.chunkBytes >= 0.0 && ld.chunkCompute >= 0.0
    ensures BestSplit(t, ld, at, split)
    ensures took == SplitTime(t, ld, at, split)
    ensures exists k :: BestSplit(t, ld, at, k) && took == SplitTime(t, ld, at, k)
  {
    hide Times, SendTime;
    var computed, loaded := 0, 0;
    var nextCompute := at + ld.chunkCompute;
    var first := Send(t, at, ld.chunkBytes);
    var nextLoad := at + first;
    CakeStart(t, ld, at);
    while true
      invariant 0 <= computed && 0 <= loaded && computed + loaded < ld.chunks
      invariant nextCompute == at + Times(computed + 1, ld.chunkCompute)
      invariant nextLoad == at + LoadEvent(t, ld, at, loaded + 1)
      invariant LoadEvent(t, ld, at, loaded) <= Times(computed + 1, ld.chunkCompute)
      invariant Times(computed, ld.chunkCompute) <= LoadEvent(t, ld, at, loaded + 1)
      decreases ld.chunks - computed - loaded
    {
      var now;
      TimesSucc(computed + 1, ld.chunkCompute);
      NextLoadEvent(t, ld, at, loaded + 1);
      if nextCompute <= nextLoad {
        now := nextCompute;
        computed := computed + 1;
        nextCompute := nextCompute + ld.chunkCompute;
      } else {
        now := nextLoad;
        loaded := loaded + 1;
        var next := Send(t, nextLoad, ld.chunkBytes);
        nextLoad := nextLoad + next;
      }
      if computed + loaded == ld.chunks {
        MeetingIsBest(t, ld, at, computed, now);
        return now - at, computed;
      }
    }
  }

  /** When the n-th chunk loaded from the back has arrived. */
  function LoadEvent(t: Trace, ld: Load, at: real, n: int): real
    requires t.Valid()
  {
    SendTime(t, at, Times(n, ld.chunkBytes))
  }

  lemma CakeStart(t: Trace, ld: Load, at: real)
    requires t.Valid() && ld.chunkBytes >= 0.0 && ld.chunkCompute >= 0.0
    ensures Times(0, ld.chunkCompute) == 0.0 && Times(1, ld.chunkCompute) == ld.chunkCompute
    ensures LoadEvent(t, ld, at, 0) == 0.0
    ensures LoadEvent(t, ld, at, 1) == SendTime(t, at, ld.chunkBytes) >= 0.0
  {
    TimesSucc(0, ld.chunkCompute);
    TimesSucc(0, ld.chunkBytes);
    SendNothing(t, at);
    SendTimeDelivers(t, at, ld.chunkBytes);
  }

  /** Chunks sent back to back arrive when one send of all their bytes would end. */
  lemma NextLoadEvent(t: Trace, ld: Load, at: real, n: nat)
    requires t.Valid() && ld.chunkBytes >= 0.0
    ensures var event := LoadEvent(t, ld, at, n);
            LoadEvent(t, ld, at, n + 1) == event + SendTime(t, at + event, ld.chunkBytes)
    ensures LoadEvent(t, ld, at, n) <= LoadEvent(t, ld, at, n + 1)
  {
    hide Times, SendTime;
    TimesSucc(n, ld.chunkBytes);
    TimesSign(n, ld.chunkBytes);
    SendTimeAdds(t, at, Times(n, ld.chunkBytes), ld.chunkBytes);
    SendTimeDelivers(t, at + LoadEvent(t, ld, at, n), ld.chunkBytes);
  }

  lemma LoadEventMonotone(t: Trace, ld: Load, at: real, m: nat, n: nat)
    requires t.Valid() && ld.chunkBytes >= 0.0 && m <= n
    ensures LoadEvent(t, ld, at, m) <= LoadEvent(t, ld, at, n)
  {
    TimesSign(m, ld.chunkBytes);
    TimesMonotone(m, n, ld.chunkBytes);
    SendTimeGrows(t, at, Times(m, ld.chunkBytes), Times(n, ld.chunkBytes));
  }

  /** Where the two sides meet is the best split: moving it either way makes one side later. */
  lemma MeetingIsBest(t: Trace, ld: Load, at: real, computed: int, now: real)
    requires t.Valid() && ld.chunkBytes >= 0.0 && ld.chunkCompute >= 0.0
    requires 0 <= computed <= ld.chunks
    requires now - at == SplitTime(t, ld, at, computed)
    requires now - at <= Times(computed + 1, ld.chunkCompute)
    requires now - at <= LoadEvent(t, ld, at, ld.chunks - computed + 1)
    ensures BestSplit(t, ld, at, computed)
  {
    hide Times, SendTime;
    forall j | 0 <= j <= ld.chunks
      ensures SplitTime(t, ld, at, computed) <= SplitTime(t, ld, at, j)
    {
      if j > computed {
        TimesMonotone(computed + 1, j, ld.chunkCompute);
      } else if j < computed {
        LoadEventMonotone(t, ld, at, ld.chunks - computed + 1, ld.chunks - j);
      }
    }
  }

  // ---------------------------------------------------------------------------
  // Cake <= Oracle <= 2 * Cake
  // ---------------------------------------------------------------------------

  /** No one-at-a-time schedule beats the split that loads as many chunks as it does. */
  lemma {:induction false} ScheduleNeedsItsSplit(t: Trace, ld: Load, at: real, moves: seq<Move>)
    requires t.Valid() && ld.chunkBytes >= 0.0 && ld.chunkCompute >= 0.0 && Schedule(moves)
    ensures Times(|moves| - Loaded(moves), ld.chunkCompute) <= ScheduleDone(t, ld, at, moves) - at
    ensures LoadEvent(t, ld, at, Loaded(moves)) <= ScheduleDone(t, ld, at, moves) - at
  {
    hide Times, SendTime;
    if moves == [] {
      CakeStart(t, ld, at);
    } else {
      var n := |moves| - 1;
      var before := moves[..n];
      ScheduleNeedsItsSplit(t, ld, at, before);
      var start := ScheduleDone(t, ld, at, before) + moves[n].idle;
      if moves[n].load {
        NextLoadEvent(t, ld, at, Loaded(before));
        SendTimeNeverOvertakes(t, at + LoadEvent(t, ld, at, Loaded(before)), start, ld.chunkBytes);
        SendTimeDelivers(t, start, ld.chunkBytes);
      } else {
        TimesSucc(n - Loaded(before), ld.chunkCompute);
      }
    }
  }

  /** Serialising a split, every load and then every recomputation, takes at most the time of both its sides. */
  lemma {:induction false} SerialisedSplit(t: Trace, ld: Load, at: real, k: int)
    requires t.Valid() && 0 <= k <= ld.chunks && ld.chunkBytes >= 0.0
    ensures OracleDone(t, ld, at, ld.chunks) - at <= LoadEvent(t, ld, at, ld.chunks - k) + Times(k, ld.chunkCompute)
  {
    hide Times, SendTime, Loaded, OracleDone;
    var loads := Repeat(true, ld.chunks - k);
    assert ScheduleDone(t, ld, at, []) == at;
    hide ScheduleDone;
    RepeatDone(t, ld, at, [], true, ld.chunks - k);
    assert [] + loads == loads;
    RepeatDone(t, ld, at, loads, false, k);
    OracleIsBest(t, ld, at, loads + Repeat(false, k));
  }

  /** Cake never loses to Oracle, and Oracle never takes more than twice as long. */
  lemma {:induction false} Sandwich(t: Trace, ld: Load, at: real, k: int)
    requires t.Valid() && ld.chunks >= 1 && ld.chunkBytes >= 0.0 && ld.chunkCompute >= 0.0
    requires BestSplit(t, ld, at, k)
    ensures var oracle, cake := OracleDone(t, ld, at, ld.chunks) - at, SplitTime(t, ld, at, k);
            cake <= oracle <= 2.0 * cake
  {
    hide Times, SendTime, OracleDone, ScheduleDone, Loaded;
    var moves := OracleIsASchedule(t, ld, at, ld.chunks);
    ScheduleNeedsItsSplit(t, ld, at, moves);
    var j := ld.chunks - Loaded(moves);
    assert SplitTime(t, ld, at, k) <= SplitTime(t, ld, at, j);
    SerialisedSplit(t, ld, at, k);
  }

  /** On a steady link where loading and recomputing cost the same, Oracle takes exactly twice as long. */
  lemma SandwichIsTight(rate: real, seconds: real, at: real, half: nat)
    requires rate > 0.0 && seconds > 0.0 && half >= 1
    ensures var t := Trace([1.0], [rate]);
            var ld := Load(2 * half, rate * seconds, seconds);
            && t.Valid()
            && BestSplit(t, ld, at, half)
            && OracleDone(t, ld, at, ld.chunks) - at == 2.0 * SplitTime(t, ld, at, half)
            && SplitTime(t, ld, at, half) == Times(half, seconds)
  {
    var t := Trace([1.0], [rate]);
    var ld := Load(2 * half, rate * seconds, seconds);
    forall k: int
      ensures LoadEvent(t, ld, at, k) == Times(k, seconds)
    {
      SteadySend(rate, seconds, at, k);
    }
    OracleOnSteadyLink(rate, seconds, at, ld, 2 * half);
    forall j | 0 <= j <= ld.chunks
      ensures SplitTime(t, ld, at, half) <= SplitTime(t, ld, at, j)
    {
      if j <= half {
        TimesMonotone(half, ld.chunks - j, seconds);
      } else {
        TimesMonotone(half, j, seconds);
      }
    }
    assert Times(2 * half, seconds) == 2.0 * Times(half, seconds);
  }

  lemma SteadySend(rate: real, seconds: real, at: real, k: int)
    requires rate > 0.0
    ensures var t := Trace([1.0], [rate]);
            t.Valid() && SendTime(t, at, Times(k, rate * seconds)) == Times(k, seconds)
  {
    assert Times(k, rate * seconds) == rate * Times(k, seconds);
    assert rate * Times(k, seconds) / rate == Times(k, seconds);
  }

  lemma {:induction false} OracleOnSteadyLink(rate: real, seconds: real, at: real, ld: Load, n: nat)
    requires rate > 0.0 && seconds > 0.0 && ld.chunkBytes == rate * seconds && ld.chunkCompute == seconds
    ensures var t := Trace([1.0], [rate]);
            t.Valid() && OracleDone(t, ld, at, n) == at + Times(n, seconds)
  {
    var t := Trace([1.0], [rate]);
    assert t.Valid();
    if n > 0 {
      OracleOnSteadyLink(rate, seconds, at, ld, n - 1);
      SteadySend(rate, seconds, OracleDone(t, ld, at, n - 1), 1);
      hide SendTime;
      TimesSucc(n - 1, seconds);
    }
  }
}

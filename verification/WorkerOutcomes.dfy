/**
 What each caller may rely on (internal/worker/worker.go): a call whose caller gave
 up while it waited never sends, bytes only ever go to the peer they were asked
 for, an error blames the network only if the caller was still there, and no
 connection is leaked.
 */
module WorkerOutcomes {
  import opened Results
  import opened Xfer
  import opened WorkerProtocol
  import opened WorkerSafety

  // ---------------------------------------------------------------------------
  // Requests never change
  // ---------------------------------------------------------------------------

  lemma StepKeepsRequest(s: State, step: Step, id: CallId)
    requires Enabled(s, step) && id in s.calls
    ensures var t := Apply(s, step);
            && t.allowed == s.allowed && id in t.calls
            && t.calls[id].addr == s.calls[id].addr && t.calls[id].bytes == s.calls[id].bytes
            && (s.calls[id].cancelled ==> t.calls[id].cancelled)
  {
    hide Frame, ReadByte, Begin, Put, TakeAck, WriteAck, Dialed;
  }

  lemma RunStep(run: seq<State>, i: nat) returns (step: Step)
    requires Run(run) && i + 1 < |run|
    ensures Enabled(run[i], step) && run[i + 1] == Apply(run[i], step)
  {
    hide Apply, Enabled;
    assert Next(run[i], run[i + 1]);
    step :| Enabled(run[i], step) && run[i + 1] == Apply(run[i], step);
  }

  lemma {:induction false} RequestNeverChanges(run: seq<State>, i: nat, j: nat, id: CallId)
    requires Run(run) && i <= j < |run| && id in run[i].calls
    ensures run[j].allowed == run[i].allowed && id in run[j].calls
    ensures run[j].calls[id].addr == run[i].calls[id].addr && run[j].calls[id].bytes == run[i].calls[id].bytes
    ensures run[i].calls[id].cancelled ==> run[j].calls[id].cancelled
  {
    hide Run, Apply, Enabled;
    if i < j {
      RequestNeverChanges(run, i, j - 1, id);
      var step := RunStep(run, j - 1);
      StepKeepsRequest(run[j - 1], step, id);
    }
  }

  // ---------------------------------------------------------------------------
  // Callers that gave up while they waited
  // ---------------------------------------------------------------------------

  /** The caller's context has ended while the call waits for the mutex, or before it is looked at. */
  predicate GaveUpWaiting(s: State, id: CallId) {
    && id in s.calls && s.calls[id].cancelled
    && (s.calls[id].stage.Arrived? || s.calls[id].stage.Waiting? || s.calls[id].stage.Holding?)
  }

  /** No connection carries a send of this call. */
  ghost predicate NothingSent(s: State, id: CallId) {
    forall c, k :: c in s.conns && 0 <= k < |s.conns[c].log| ==> s.conns[c].log[k].caller != id
  }

  predicate TurnedAwayStage(st: Stage) {
    match st
    case Arrived => true
    case Waiting => true
    case Holding => true
    case Leaving(o) => o == ContextError
    case Done(o) => o == ContextError || o == InvalidArgument || o == PermissionDenied
    case _ => false
  }

  ghost predicate TurnedAway(s: State, id: CallId) {
    id in s.calls && s.calls[id].cancelled && TurnedAwayStage(s.calls[id].stage) && NothingSent(s, id)
  }

  lemma WaitingHasSentNothing(s: State, id: CallId)
    requires Inv(s) && GaveUpWaiting(s, id)
    ensures TurnedAway(s, id)
  {
    LockAndOrder(s);
    hide Core;
    forall c, k | c in s.conns && 0 <= k < |s.conns[c].log|
      ensures s.conns[c].log[k].caller != id
    {
      assert LogOk(s, s.conns[c].log, Bound(s));
      assert EntryOk(s, s.conns[c].log[k]);
    }
  }

  lemma TurnedAwayMoves(s: State, step: Step, id: CallId)
    requires Enabled(s, step) && id in s.calls && s.calls[id].cancelled && TurnedAwayStage(s.calls[id].stage)
    ensures var t := Apply(s, step);
            id in t.calls && t.calls[id].cancelled && TurnedAwayStage(t.calls[id].stage)
    ensures step != BeginSend(id)
  {
    hide Frame, ReadByte, Begin, Put, TakeAck, WriteAck, Dialed;
  }

  lemma StaysTurnedAway(s: State, step: Step, id: CallId)
    requires Enabled(s, step) && TurnedAway(s, id)
    ensures TurnedAway(Apply(s, step), id)
  {
    TurnedAwayMoves(s, step, id);
    hide Apply, Enabled, TurnedAwayStage;
    var t := Apply(s, step);
    forall c, k | c in t.conns && 0 <= k < |t.conns[c].log|
      ensures t.conns[c].log[k].caller != id
    {
      LogsAfter(s, step, c);
    }
  }

  /**
   A request whose caller gave up while it waited stops there: nothing of it is ever
   sent on any connection, and if it was a valid one for an allowed peer, the only
   answer it can get is that the context ended.
   */
  lemma {:induction false} GivingUpSendsNothing(run: seq<State>, i: nat, j: nat, id: CallId)
    requires Run(run) && i <= j < |run| && GaveUpWaiting(run[i], id)
    ensures TurnedAway(run[j], id)
    ensures var call := run[j].calls[id];
            call.stage.Done? && call.bytes > 0 && call.addr != "" && call.addr in run[j].allowed
            ==> call.stage.outcome == ContextError
  {
    hide Run, Apply, Enabled, TurnedAway;
    RunKeepsInv(run, j);
    if i == j {
      WaitingHasSentNothing(run[j], id);
    } else {
      GivingUpSendsNothing(run, i, j - 1, id);
      var step := RunStep(run, j - 1);
      StaysTurnedAway(run[j - 1], step, id);
    }
    TurnedAwayOutcome(run[j], id);
  }

  lemma TurnedAwayOutcome(s: State, id: CallId)
    requires Inv(s) && TurnedAway(s, id)
    ensures var call := s.calls[id];
            call.stage.Done? && call.bytes > 0 && call.addr != "" && call.addr in s.allowed
            ==> call.stage.outcome == ContextError
  {
    hide ConnOk, Settled, OrderOk, NothingSent;
    assert CallOk(s, id);
  }

  // ---------------------------------------------------------------------------
  // Sends reach the peer they were asked for
  // ---------------------------------------------------------------------------

  /** Every send on a connection is of a valid request for that connection's peer. */
  ghost predicate PeersOk(s: State) {
    forall c, k :: c in s.conns && 0 <= k < |s.conns[c].log| ==> PeerOk(s, s.conns[c].log[k].caller, s.conns[c].addr)
  }

  ghost predicate PeerOk(s: State, id: CallId, peer: Addr) {
    id in s.calls && s.calls[id].addr == peer && WorkerSafety.Valid(s, s.calls[id])
  }

  lemma PeerKept(s: State, step: Step, id: CallId, peer: Addr)
    requires Enabled(s, step) && PeerOk(s, id, peer)
    ensures PeerOk(Apply(s, step), id, peer)
  {
    StepKeepsRequest(s, step, id);
    hide Apply, Enabled;
  }

  lemma AddrKept(s: State, step: Step, c: ConnId)
    requires Enabled(s, step) && c in s.conns
    ensures c in Apply(s, step).conns && Apply(s, step).conns[c].addr == s.conns[c].addr
  {
    hide Frame, Feed;
  }

  lemma SenderHasPeer(s: State, id: CallId)
    requires Core(s) && Enabled(s, BeginSend(id))
    ensures PeerOk(s, id, s.conns[s.calls[id].stage.conn].addr)
  {
    hide ConnOk, Settled;
    assert CallOk(s, id);
  }

  lemma StepKeepsPeers(s: State, step: Step)
    requires Core(s) && PeersOk(s) && Enabled(s, step)
    ensures PeersOk(Apply(s, step))
  {
    hide Core, Apply, Enabled, PeerOk;
    var t := Apply(s, step);
    forall c, k | c in t.conns && 0 <= k < |t.conns[c].log|
      ensures PeerOk(t, t.conns[c].log[k].caller, t.conns[c].addr)
    {
      LogsAfter(s, step, c);
      if c in s.conns {
        AddrKept(s, step, c);
        if k < |s.conns[c].log| {
          PeerKept(s, step, s.conns[c].log[k].caller, s.conns[c].addr);
        } else {
          SenderHasPeer(s, step.id);
          PeerKept(s, step, step.id, s.conns[c].addr);
        }
      }
    }
  }

  /**
   Over every run, a connection carries only sends that were asked for its own peer,
   of at least one byte, and the peer is one this worker may send to. A request that
   is refused has therefore sent nothing.
   */
  lemma {:induction false} SendsReachTheirPeer(run: seq<State>, i: nat)
    requires Run(run) && i < |run|
    ensures PeersOk(run[i])
    ensures forall id :: id in run[i].calls && run[i].calls[id].stage.Done?
                         && (run[i].calls[id].stage.outcome == InvalidArgument || run[i].calls[id].stage.outcome == PermissionDenied)
              ==> NothingSent(run[i], id)
  {
    hide Apply, Enabled;
    RunKeepsInv(run, i);
    if i > 0 {
      SendsReachTheirPeer(run, i - 1);
      RunKeepsInv(run, i - 1);
      LockAndOrder(run[i - 1]);
      var step := RunStep(run, i - 1);
      StepKeepsPeers(run[i - 1], step);
    }
    hide Run, PeersOk;
    forall id | id in run[i].calls && run[i].calls[id].stage.Done?
                && (run[i].calls[id].stage.outcome == InvalidArgument || run[i].calls[id].stage.outcome == PermissionDenied)
      ensures NothingSent(run[i], id)
    {
      RefusedHasSentNothing(run[i], id);
    }
  }

  lemma RefusedHasSentNothing(s: State, id: CallId)
    requires Inv(s) && PeersOk(s) && id in s.calls && s.calls[id].stage.Done?
    requires s.calls[id].stage.outcome == InvalidArgument || s.calls[id].stage.outcome == PermissionDenied
    ensures NothingSent(s, id)
  {
    hide ConnOk, Settled, OrderOk;
    assert CallOk(s, id);
    assert !WorkerSafety.Valid(s, s.calls[id]);
  }

  // ---------------------------------------------------------------------------
  // Answers
  // ---------------------------------------------------------------------------

  /** A request is refused exactly if it is malformed, or well-formed for a peer that is not allowed. */
  lemma RefusedIff(run: seq<State>, i: nat, id: CallId)
    requires Run(run) && i < |run| && id in run[i].calls && run[i].calls[id].stage.Done?
    ensures var s, call := run[i], run[i].calls[id];
            && (call.stage.outcome == InvalidArgument <==> call.bytes <= 0 || call.addr == "")
            && (call.stage.outcome == PermissionDenied <==> call.bytes > 0 && call.addr != "" && call.addr !in s.allowed)
  {
    hide ConnOk, Settled;
    RunKeepsInv(run, i);
    assert CallOk(run[i], id);
  }

  /** At the step on which a call fails, it blames the network exactly if its caller is still there, and the context otherwise. */
  lemma FailureBlames(run: seq<State>, i: nat, id: CallId)
    requires Run(run) && i + 1 < |run| && id in run[i].calls && !run[i].calls[id].stage.Leaving?
    requires id in run[i + 1].calls && run[i + 1].calls[id].stage.Leaving?
    ensures var o := run[i + 1].calls[id].stage.outcome;
            && (o.Success? || o == (if run[i].calls[id].cancelled then ContextError else Unavailable))
  {
    var step := RunStep(run, i);
    hide Run;
    FailureOfStep(run[i], step, id);
  }

  lemma FailureOfStep(s: State, step: Step, id: CallId)
    requires Enabled(s, step) && id in s.calls && !s.calls[id].stage.Leaving?
    requires id in Apply(s, step).calls && Apply(s, step).calls[id].stage.Leaving?
    ensures var o := Apply(s, step).calls[id].stage.outcome;
            o.Success? || o == if s.calls[id].cancelled then ContextError else Unavailable
  {
    hide Frame, ReadByte, Begin, Put, TakeAck, WriteAck, Dialed;
  }

  // ---------------------------------------------------------------------------
  // Connections are not leaked
  // ---------------------------------------------------------------------------

  /** A connection is open exactly while it is in the pool. */
  ghost predicate NoLeak(s: State) {
    forall c :: c in s.conns ==> (Pooled(s, c) <==> !s.conns[c].closed)
  }

  predicate ChangesPool(step: Step) {
    step.Dial? || step.Settle? || step.CloseWorker?
  }

  lemma PoolUntouched(s: State, step: Step, c: ConnId)
    requires Enabled(s, step) && !ChangesPool(step)
    ensures var t := Apply(s, step);
            t.pool == s.pool && (c in t.conns <==> c in s.conns) && (c in s.conns ==> t.conns[c].closed == s.conns[c].closed)
  {
    hide Frame, Feed;
  }

  lemma SettleKeepsNoLeak(s: State, id: CallId)
    requires NoLeak(s) && Enabled(s, WorkerProtocol.Step.Settle(id))
    requires var c := s.calls[id].stage.conn; Pooled(s, c) && s.conns[c].addr == s.calls[id].addr
    ensures NoLeak(Apply(s, WorkerProtocol.Step.Settle(id)))
  {
    hide Failure;
    var t := Apply(s, WorkerProtocol.Step.Settle(id));
    forall d | d in t.conns
      ensures Pooled(t, d) <==> !t.conns[d].closed
    {
      assert Pooled(s, d) <==> !s.conns[d].closed;
    }
  }

  lemma SettlerHasPooled(s: State, id: CallId)
    requires Core(s) && Enabled(s, WorkerProtocol.Step.Settle(id))
    ensures var c := s.calls[id].stage.conn; Pooled(s, c) && s.conns[c].addr == s.calls[id].addr
  {
    SettlerFacts(s, id);
    hide Core, CallOk, ConnOk;
  }

  lemma StepKeepsNoLeak(s: State, step: Step)
    requires Core(s) && NoLeak(s) && Enabled(s, step)
    ensures NoLeak(Apply(s, step))
  {
    hide Core;
    var t := Apply(s, step);
    if step.Settle? {
      SettlerHasPooled(s, step.id);
      SettleKeepsNoLeak(s, step.id);
    } else if !ChangesPool(step) {
      hide Apply, Enabled;
      forall c | c in t.conns
        ensures Pooled(t, c) <==> !t.conns[c].closed
      {
        PoolUntouched(s, step, c);
        AddrKept(s, step, c);
      }
    }
  }

  /** In every run, a connection is open exactly while it is in the pool, so a dropped one is never left open. */
  lemma {:induction false} NoConnectionLeaks(run: seq<State>, i: nat)
    requires Run(run) && i < |run|
    ensures NoLeak(run[i])
  {
    hide Apply, Enabled;
    if i > 0 {
      NoConnectionLeaks(run, i - 1);
      RunKeepsInv(run, i - 1);
      LockAndOrder(run[i - 1]);
      var step := RunStep(run, i - 1);
      StepKeepsNoLeak(run[i - 1], step);
    }
  }

  /** Closing the worker, at any point of any run, closes every connection it ever opened. */
  lemma CloseClosesEverything(run: seq<State>, i: nat, c: ConnId)
    requires Run(run) && i < |run| && Enabled(run[i], CloseWorker) && c in run[i].conns
    ensures var t := Apply(run[i], CloseWorker);
            t.pool == map[] && c in t.conns && t.conns[c] == run[i].conns[c].(closed := true)
  {
    NoConnectionLeaks(run, i);
    hide Run;
  }

  // ---------------------------------------------------------------------------
  // Sends that begin too late
  // ---------------------------------------------------------------------------

  predicate Tripped(call: Call, c: ConnId) {
    call.tripwire == Fired(c) || call.tripwire == Landed(c)
  }

  /** The call's context had ended before its send on c began, or its tripwire has fired during it. */
  predicate Doomed(s: State, id: CallId, c: ConnId) {
    && id in s.calls
    && match s.calls[id].stage
       case Connected(d) => d == c && s.calls[id].cancelled
       case Sending(d, _) => d == c && Tripped(s.calls[id], c)
       case Sent(d, _) => d == c && Tripped(s.calls[id], c)
       case Stopped(d, _, stopped) => d == c && !stopped && Tripped(s.calls[id], c)
       case Leaving(_) => Tripped(s.calls[id], c)
       case Done(_) => Tripped(s.calls[id], c)
       case _ => false
  }

  lemma StaysDoomed(s: State, step: Step, id: CallId, c: ConnId)
    requires Enabled(s, step) && Doomed(s, id, c)
    ensures Doomed(Apply(s, step), id, c)
  {
    hide Frame, ReadByte, Begin, Put, TakeAck, WriteAck, Dialed;
  }

  /**
   A connection that a send began on after its caller's context had ended is never
   used again: once the call is over, whatever its outcome, the connection is closed
   and out of the pool.
   */
  lemma {:induction false} LateSendDropsConnection(run: seq<State>, i: nat, j: nat, id: CallId, c: ConnId)
    requires Run(run) && i <= j < |run| && Doomed(run[i], id, c)
    ensures Doomed(run[j], id, c)
    ensures run[j].calls[id].stage.Leaving? || run[j].calls[id].stage.Done? ==>
              c in run[j].conns && run[j].conns[c].closed && !Pooled(run[j], c)
  {
    hide Run, Apply, Enabled, Doomed;
    if i < j {
      LateSendDropsConnection(run, i, j - 1, id, c);
      var step := RunStep(run, j - 1);
      StaysDoomed(run[j - 1], step, id, c);
    }
    RunKeepsInv(run, j);
    NoConnectionLeaks(run, j);
    DoomedIsDropped(run[j], id, c);
  }

  lemma DoomedIsDropped(s: State, id: CallId, c: ConnId)
    requires Inv(s) && NoLeak(s) && Doomed(s, id, c)
    ensures s.calls[id].stage.Leaving? || s.calls[id].stage.Done? ==> c in s.conns && s.conns[c].closed && !Pooled(s, c)
  {
    hide ConnOk, Settled, OrderOk;
    assert CallOk(s, id);
  }

  /** A tripwire that has done its work has expired its connection's deadline, which wakes a send blocked on it. */
  ghost predicate LandedExpire(s: State) {
    forall id :: id in s.calls ==> ExpiredIfLanded(s, s.calls[id].tripwire)
  }

  predicate ExpiredIfLanded(s: State, tw: Tripwire) {
    tw.Landed? ==> tw.conn in s.conns && s.conns[tw.conn].expired
  }

  lemma ExpiredStays(s: State, step: Step, c: ConnId)
    requires Enabled(s, step) && c in s.conns && s.conns[c].expired
    ensures c in Apply(s, step).conns && Apply(s, step).conns[c].expired
  {
    hide Frame, Feed;
  }

  lemma OnlyLandLands(s: State, step: Step, id: CallId)
    requires Enabled(s, step) && id in Apply(s, step).calls
    ensures var t := Apply(s, step);
            t.calls[id].tripwire.Landed? ==>
              (id in s.calls && s.calls[id].tripwire == t.calls[id].tripwire)
              || (t.calls[id].tripwire.conn in t.conns && t.conns[t.calls[id].tripwire.conn].expired)
  {
    hide Frame, ReadByte, Begin, Put, TakeAck, WriteAck, Dialed;
  }

  lemma {:induction false} LandedTripwiresExpire(run: seq<State>, i: nat)
    requires Run(run) && i < |run|
    ensures LandedExpire(run[i])
  {
    hide Apply, Enabled;
    if i > 0 {
      LandedTripwiresExpire(run, i - 1);
      var step := RunStep(run, i - 1);
      forall id | id in run[i].calls
        ensures ExpiredIfLanded(run[i], run[i].calls[id].tripwire)
      {
        OnlyLandLands(run[i - 1], step, id);
        if run[i].calls[id].tripwire.Landed? && id in run[i - 1].calls && run[i - 1].calls[id].tripwire == run[i].calls[id].tripwire {
          assert ExpiredIfLanded(run[i - 1], run[i - 1].calls[id].tripwire);
          ExpiredStays(run[i - 1], step, run[i].calls[id].tripwire.conn);
        }
      }
    }
  }
}

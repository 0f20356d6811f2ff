/**
 What transfers can always still do (internal/worker/worker.go): a send whose
 receiver is reading never jams, and after any history at all a new call can run
 to success on the pooled connection.
 */
module WorkerProgress {
  import opened Results
  import opened Xfer
  import opened WorkerProtocol
  import opened WorkerSafety

  ghost predicate Path(p: seq<State>) {
    p != [] && forall i :: 0 <= i < |p| - 1 ==> Next(p[i], p[i + 1])
  }

  ghost predicate Reaches(s: State, t: State) {
    exists p :: Path(p) && p[0] == s && p[|p| - 1] == t
  }

  lemma ReachesSelf(s: State)
    ensures Reaches(s, s)
  {
    assert Path([s]);
  }

  lemma StepReaches(s: State, step: Step)
    requires Enabled(s, step)
    ensures Reaches(s, Apply(s, step))
  {
    hide Apply, Enabled;
    assert Path([s, Apply(s, step)]);
  }

  lemma ReachesOn(s: State, t: State, u: State)
    requires Reaches(s, t) && Reaches(t, u)
    ensures Reaches(s, u)
  {
    hide Next;
    var p :| Path(p) && p[0] == s && p[|p| - 1] == t;
    var q :| Path(q) && q[0] == t && q[|q| - 1] == u;
    var r := p[..|p| - 1] + q;
    forall i | 0 <= i < |r| - 1
      ensures Next(r[i], r[i + 1])
    {
      if i < |p| - 1 {
        assert Next(p[i], p[i + 1]);
      } else {
        assert Next(q[i - (|p| - 1)], q[i - (|p| - 1) + 1]);
      }
    }
    assert Path(r);
  }

  /** One step taken, in a state the invariant holds of. */
  lemma Take(s: State, u: State, step: Step)
    requires Reaches(s, u) && Inv(u) && Enabled(u, step)
    ensures Reaches(s, Apply(u, step)) && Inv(Apply(u, step))
  {
    hide Inv, Enabled, Apply, Reaches;
    StepReaches(u, step);
    ReachesOn(s, u, Apply(u, step));
    StepKeepsInv(u, step);
  }

  /** A live send: its context has not ended and its receiver is still there. */
  predicate Live(s: State, id: CallId) {
    && id in s.calls && s.calls[id].stage.Sending? && s.calls[id].stage.conn in s.conns
    && s.conns[s.calls[id].stage.conn].receiverUp && s.calls[id].tripwire == Armed(s.calls[id].stage.conn)
  }

  /** Bytes still to write, bytes still to read and acks still to write, weighted so that each step leaves less. */
  function Remaining(s: State, id: CallId): int
    requires Live(s, id)
  {
    var c := s.conns[s.calls[id].stage.conn];
    3 * (|Frame(s.calls[id].bytes)| - s.calls[id].stage.pos) + 2 * |c.inflight| + (if c.ackOwed then 1 else 0)
  }

  predicate Moves(step: Step, id: CallId, c: ConnId) {
    step == Write(id) || step == Acked(id) || step == ReceiverReads(c) || step == ReceiverAcks(c)
  }

  /** With every byte written and read and every ack written, an ack is waiting for the sender. */
  lemma AckIsThere(c: Conn)
    requires ConnOk(c) && !Settled(c) && c.inflight == [] && !c.ackOwed
    requires c.log != [] && c.written == |Frame(c.log[|c.log| - 1].size)|
    ensures c.acks > 0
  {
    hide FeedAll, Drained, Frame;
    DrainedWhole(Sizes(c.log), c.written);
    FeedNothing(c.rx);
  }

  /** Someone can always move on a live send. */
  lemma SomeoneCanMove(s: State, id: CallId) returns (step: Step)
    requires Inv(s) && Live(s, id)
    ensures Moves(step, id, s.calls[id].stage.conn) && Enabled(s, step)
  {
    hide Frame, LogOk, FeedAll, PoolOk, IdleOk, OrderOk, Feed, Settled, Drained, PhaseOk;
    var c := s.calls[id].stage.conn;
    assert CallOk(s, id);
    var conn := s.conns[c];
    var frame := |Frame(s.calls[id].bytes)|;
    assert ConnOk(conn) && conn.written <= frame;
    hide ConnOk;
    if s.calls[id].stage.pos < frame {
      step := Write(id);
    } else if conn.ackOwed {
      step := ReceiverAcks(c);
    } else if conn.inflight != [] {
      step := ReceiverReads(c);
    } else {
      AckIsThere(conn);
      step := Acked(id);
    }
  }

  /** The send goes on where it was, with less left to do. */
  ghost predicate Nearer(s: State, t: State, id: CallId)
    requires Live(s, id)
  {
    && Live(t, id) && Remaining(t, id) < Remaining(s, id)
    && t.calls[id] == s.calls[id].(stage := t.calls[id].stage) && t.calls[id].stage.conn == s.calls[id].stage.conn
  }

  /** Whoever moves brings the send nearer its end. */
  lemma EveryMoveHelps(s: State, id: CallId, step: Step)
    requires Live(s, id) && Moves(step, id, s.calls[id].stage.conn) && Enabled(s, step)
    ensures var t := Apply(s, step);
            if step == Acked(id)
            then id in t.calls && t.calls[id] == s.calls[id].(stage := Sent(s.calls[id].stage.conn, true))
            else Nearer(s, t, id)
  {
    hide Frame, Feed;
  }

  /** In every run, a send whose receiver is up is never stuck, and whoever moves brings it nearer its end. */
  lemma SendNeverJams(run: seq<State>, i: nat, id: CallId)
    requires Run(run) && i < |run| && Live(run[i], id)
    ensures var s, c := run[i], run[i].calls[id].stage.conn;
            && (exists step :: Moves(step, id, c) && Enabled(s, step))
            && forall step :: Moves(step, id, c) && Enabled(s, step) && step != Acked(id) ==> Nearer(s, Apply(s, step), id)
  {
    RunKeepsInv(run, i);
    hide Inv, Run, Apply, Enabled, Remaining, Moves, Nearer;
    var s := run[i];
    var c := s.calls[id].stage.conn;
    var some := SomeoneCanMove(s, id);
    assert Moves(some, id, c);
    forall step | Moves(step, id, c) && Enabled(s, step) && step != Acked(id)
      ensures Nearer(s, Apply(s, step), id)
    {
      EveryMoveHelps(s, id, step);
    }
  }

  /** From the middle of a live send, its ack can always be reached. */
  lemma {:induction false} SendCanFinish(s: State, id: CallId) returns (t: State)
    requires Inv(s) && Live(s, id)
    ensures Inv(t) && Reaches(s, t) && id in t.calls
    ensures t.calls[id] == s.calls[id].(stage := Sent(s.calls[id].stage.conn, true))
    decreases Remaining(s, id)
  {
    hide Inv, Apply, Enabled, Remaining, Reaches, Moves;
    NotOverWritten(s, id);
    var step := SomeoneCanMove(s, id);
    EveryMoveHelps(s, id, step);
    var u := Apply(s, step);
    StepKeepsInv(s, step);
    if step == Acked(id) {
      t := u;
      ReachesSelf(t);
    } else {
      t := SendCanFinish(u, id);
    }
    StepReaches(s, step);
    ReachesOn(s, u, t);
  }

  lemma NotOverWritten(s: State, id: CallId)
    requires Inv(s) && Live(s, id)
    ensures Remaining(s, id) >= 0
  {
    hide Frame, LogOk, FeedAll, PoolOk, IdleOk, OrderOk, Settled, Drained, PhaseOk;
    assert CallOk(s, id);
    assert ConnOk(s.conns[s.calls[id].stage.conn]);
  }

  lemma CanBegin(s: State, id: CallId, addr: Addr, n: Int64) returns (t: State)
    requires Inv(s) && s.lock == None && id !in s.calls
    requires n > 0 && addr != "" && addr in s.allowed
    requires addr in s.pool ==> s.pool[addr] in s.conns && s.conns[s.pool[addr]].receiverUp
    ensures Inv(t) && Reaches(s, t) && Live(t, id) && t.calls[id].addr == addr
    ensures addr in s.pool ==> t.calls[id].stage.conn == s.pool[addr]
  {
    hide Inv, Reaches;
    ReachesSelf(s);
    Take(s, s, Arrive(id, addr, n));
    var s1 := Apply(s, Arrive(id, addr, n));
    Take(s, s1, Check(id));
    var s2 := Apply(s1, Check(id));
    Take(s, s2, Acquire(id));
    var s3 := Apply(s2, Acquire(id));
    Take(s, s3, CheckContext(id));
    var s4 := Apply(s3, CheckContext(id));
    assert s4.pool == s.pool && s4.conns == s.conns && id in s4.calls && s4.calls[id].stage == Cleared;
    assert s4.calls[id].addr == addr && !s4.calls[id].cancelled;
    t := CanConnect(s, s4, id);
  }

  lemma CanConnect(s: State, u: State, id: CallId) returns (t: State)
    requires Inv(u) && Reaches(s, u) && id in u.calls && u.calls[id].stage == Cleared && !u.calls[id].cancelled
    requires var addr := u.calls[id].addr; addr in u.pool ==> u.pool[addr] in u.conns && u.conns[u.pool[addr]].receiverUp
    ensures Inv(t) && Reaches(s, t) && Live(t, id) && t.calls[id].addr == u.calls[id].addr
    ensures u.calls[id].addr in u.pool ==> t.calls[id].stage.conn == u.pool[u.calls[id].addr]
  {
    hide Inv, Reaches;
    var unused := UnusedId(u.conns.Keys);
    var step := if u.calls[id].addr in u.pool then Reuse(id) else Dial(id, unused);
    Take(s, u, step);
    var v := Apply(u, step);
    Take(s, v, BeginSend(id));
    t := Apply(v, BeginSend(id));
  }

  lemma {:induction false} UnusedId(ids: set<ConnId>) returns (unused: ConnId)
    ensures forall c :: c in ids ==> c < unused
  {
    if ids == {} {
      unused := 0;
    } else {
      var c :| c in ids;
      unused := UnusedId(ids - {c});
      assert forall d :: d in ids ==> d == c || d in ids - {c};
      if unused <= c {
        unused := c + 1;
      }
    }
  }

  /** A new request that got the mutex, sent all its bytes and left its connection in the pool. */
  ghost predicate Succeeded(t: State, id: CallId, addr: Addr, c: ConnId) {
    && t.lock == None && id in t.calls
    && t.calls[id].stage.Done? && t.calls[id].stage.outcome.Success? && t.calls[id].stage.outcome.conn == c
    && addr in t.pool && t.pool[addr] == c
  }

  lemma SentIsPooled(s: State, id: CallId)
    requires Inv(s) && id in s.calls && s.calls[id].stage.Sent?
    ensures var c := s.calls[id].stage.conn;
            c in s.conns && s.calls[id].addr in s.pool && s.pool[s.calls[id].addr] == c
  {
    hide ConnOk, LogOk;
    assert CallOk(s, id);
  }

  lemma CanLeave(s: State, id: CallId) returns (t: State)
    requires Inv(s) && id in s.calls && s.calls[id].stage.Sent? && s.calls[id].stage.ok
    requires s.calls[id].tripwire == Armed(s.calls[id].stage.conn)
    ensures Inv(t) && Reaches(s, t) && Succeeded(t, id, s.calls[id].addr, s.calls[id].stage.conn)
  {
    hide Inv, Reaches;
    var c := s.calls[id].stage.conn;
    SentIsPooled(s, id);
    ReachesSelf(s);
    Take(s, s, StopTripwire(id));
    var s1 := Apply(s, StopTripwire(id));
    assert s1.calls[id].stage == Stopped(c, true, true);
    Take(s, s1, Step.Settle(id));
    var s2 := Apply(s1, Step.Settle(id));
    Take(s, s2, Release(id));
    t := Apply(s2, Release(id));
  }

  /**
   After any history, while the mutex is free, a new valid request can run to
   success: over the pooled connection if there is one, whatever happened on it
   before, and its connection is still pooled afterwards.
   */
  lemma NewCallCanSucceed(run: seq<State>, i: nat, id: CallId, addr: Addr, n: Int64)
    requires Run(run) && i < |run|
    requires run[i].lock == None && id !in run[i].calls
    requires n > 0 && addr != "" && addr in run[i].allowed
    requires addr in run[i].pool ==> run[i].pool[addr] in run[i].conns && run[i].conns[run[i].pool[addr]].receiverUp
    ensures exists t, c :: Reaches(run[i], t) && Succeeded(t, id, addr, c) && (addr in run[i].pool ==> c == run[i].pool[addr])
  {
    var s := run[i];
    RunKeepsInv(run, i);
    hide Inv, Reaches, Run;
    var u := CanBegin(s, id, addr, n);
    var v := SendCanFinish(u, id);
    var t := CanLeave(v, id);
    ReachesOn(s, u, v);
    ReachesOn(s, v, t);
    assert Succeeded(t, id, addr, u.calls[id].stage.conn);
  }
}

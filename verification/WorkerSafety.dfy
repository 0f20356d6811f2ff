/**
 What every interleaving of transfers keeps (internal/worker/worker.go,
 internal/xfer/xfer.go): one inductive invariant over locks, calls, tripwires,
 connections and the pool, and the promises that follow from it in every run.
 */
module WorkerSafety {
  import opened Results
  import opened Xfer
  import opened WorkerProtocol

  // ---------------------------------------------------------------------------
  // The invariant
  // ---------------------------------------------------------------------------

  ghost predicate Pooled(s: State, c: ConnId) {
    c in s.conns && s.conns[c].addr in s.pool && s.pool[s.conns[c].addr] == c
  }

  /** The mutex is held by the one call that is between Lock and Unlock. */
  ghost predicate LockOk(s: State) {
    && (s.lock.Some? ==> s.lock.value in s.calls)
    && forall id :: id in s.calls ==> (HasLock(s.calls[id].stage) <==> s.lock == Some(id))
  }

  ghost predicate PoolOk(s: State) {
    forall a :: a in s.pool ==> s.pool[a] in s.conns && s.conns[s.pool[a]].addr == a && !s.conns[s.pool[a]].closed
  }

  ghost predicate ConnsOk(s: State) {
    forall c :: c in s.conns ==> ConnOk(s.conns[c])
  }

  predicate InUse(s: State, c: ConnId) {
    s.lock.Some? && s.lock.value in s.calls && UsesConn(s.calls[s.lock.value].stage, c)
  }

  ghost predicate Idle(c: Conn) {
    Settled(c) && !c.expired
  }

  /** Pooled connections nobody uses are ready for the next transfer. */
  ghost predicate IdleOk(s: State) {
    forall c :: c in s.conns && Pooled(s, c) && !InUse(s, c) ==> Idle(s.conns[c])
  }

  predicate LastIs(c: Conn, e: Entry) {
    c.log != [] && c.log[|c.log| - 1] == e
  }

  predicate Valid(s: State, call: Call) {
    call.bytes > 0 && call.addr != "" && call.addr in s.allowed
  }

  /** The call's own send on connection c, whose deadline only its own tripwire may have set. */
  ghost predicate Uses(s: State, id: CallId, c: ConnId)
    requires id in s.calls
  {
    var call := s.calls[id];
    && Valid(s, call)
    && Pooled(s, c)
    && s.conns[c].addr == call.addr
    && LastIs(s.conns[c], Entry(call.ticket, id, call.bytes))
    && (s.conns[c].expired ==> call.tripwire == Landed(c))
    && (call.tripwire == Fired(c) || call.tripwire == Landed(c) ==> call.cancelled)
  }

  predicate Watches(tw: Tripwire, c: ConnId) {
    tw == Armed(c) || tw == Fired(c) || tw == Landed(c)
  }

  ghost predicate OutcomeOk(s: State, id: CallId, o: Outcome)
    requires id in s.calls
  {
    var call := s.calls[id];
    match o
    case Success(c, i) =>
      && Valid(s, call)
      && c in s.conns && s.conns[c].addr == call.addr
      && i < |s.conns[c].log| && i < |s.conns[c].rx.parsed|
      && s.conns[c].log[i] == Entry(call.ticket, id, call.bytes)
    case InvalidArgument => call.bytes <= 0 || call.addr == ""
    case PermissionDenied => call.bytes > 0 && call.addr != "" && call.addr !in s.allowed
    case ContextError => Valid(s, call) && call.cancelled
    case Unavailable => Valid(s, call)
  }

  /** A tripwire left behind points at a connection that no later call can get. */
  ghost predicate Harmless(s: State, tw: Tripwire) {
    tw == Unset || tw == Disarmed || ((tw.Fired? || tw.Landed?) && tw.conn in s.conns && !Pooled(s, tw.conn))
  }

  ghost predicate CallOk(s: State, id: CallId)
    requires id in s.calls
  {
    var call := s.calls[id];
    match call.stage
    case Arrived => call.tripwire == Unset
    case Waiting => Valid(s, call) && call.tripwire == Unset
    case Holding => Valid(s, call) && call.tripwire == Unset
    case Cleared => Valid(s, call) && call.tripwire == Unset
    case Connected(c) => Valid(s, call) && call.tripwire == Unset && Pooled(s, c) && s.conns[c].addr == call.addr && Idle(s.conns[c])
    case Sending(c, pos) => Uses(s, id, c) && Watches(call.tripwire, c) && !Settled(s.conns[c]) && s.conns[c].written == pos
    case Sent(c, ok) => Uses(s, id, c) && Watches(call.tripwire, c) && (ok ==> Settled(s.conns[c]))
    case Stopped(c, ok, stopped) =>
      && Uses(s, id, c) && (ok ==> Settled(s.conns[c]))
      && (if stopped then call.tripwire == Disarmed else call.tripwire == Fired(c) || call.tripwire == Landed(c))
    case Leaving(o) => Harmless(s, call.tripwire) && OutcomeOk(s, id, o)
    case Done(o) => Harmless(s, call.tripwire) && OutcomeOk(s, id, o)
  }

  ghost predicate CallsOk(s: State) {
    forall id :: id in s.calls ==> CallOk(s, id)
  }

  /** The call has begun its send, so its entry is in some log and its ticket no longer changes. */
  predicate Begun(st: Stage) {
    !(st.Arrived? || st.Waiting? || st.Holding? || st.Cleared? || st.Connected?)
  }

  predicate BeforeSend(st: Stage) {
    st.Holding? || st.Cleared? || st.Connected?
  }

  ghost predicate EntryOk(s: State, e: Entry) {
    && e.caller in s.calls
    && Begun(s.calls[e.caller].stage)
    && s.calls[e.caller].ticket == e.ticket
    && s.calls[e.caller].bytes == e.size
  }

  ghost predicate Increasing(log: seq<Entry>, bound: nat) {
    && (forall i, j :: 0 <= i < j < |log| ==> log[i].ticket < log[j].ticket)
    && forall i :: 0 <= i < |log| ==> log[i].ticket < bound
  }

  ghost predicate LogOk(s: State, log: seq<Entry>, bound: nat) {
    Increasing(log, bound) && forall i :: 0 <= i < |log| ==> EntryOk(s, log[i])
  }

  /** Tickets below this one are spoken for: a call about to send has a higher one than any send begun. */
  function Bound(s: State): nat {
    if s.lock.Some? && s.lock.value in s.calls && BeforeSend(s.calls[s.lock.value].stage) && s.tickets > 0
    then s.tickets - 1 else s.tickets
  }

  /** Sends on a connection are logged in the order in which their calls got the mutex. */
  ghost predicate OrderOk(s: State) {
    && (s.lock.Some? ==> s.lock.value in s.calls && s.calls[s.lock.value].ticket + 1 == s.tickets)
    && forall c :: c in s.conns ==> LogOk(s, s.conns[c].log, Bound(s))
  }

  /** What is true of the mutex, the pool, every connection and every call. */
  ghost predicate Core(s: State) {
    LockOk(s) && PoolOk(s) && ConnsOk(s) && IdleOk(s) && CallsOk(s)
  }

  ghost predicate Inv(s: State) {
    Core(s) && OrderOk(s)
  }

  // ---------------------------------------------------------------------------
  // Calls that do not move
  // ---------------------------------------------------------------------------

  /** A connection only ever adds to its history. */
  ghost predicate Grows(c: Conn, d: Conn) {
    d.addr == c.addr && c.log <= d.log && c.rx.parsed <= d.rx.parsed
  }

  ghost predicate Evolves(s: State, t: State) {
    && t.allowed == s.allowed
    && forall c :: c in s.conns ==> c in t.conns && Grows(s.conns[c], t.conns[c]) && (Pooled(t, c) ==> Pooled(s, c))
  }

  /** A call without the mutex is unaffected by anything the others do. */
  lemma BystanderOk(s: State, t: State, id: CallId)
    requires Evolves(s, t) && id in s.calls && id in t.calls && t.calls[id] == s.calls[id]
    requires CallOk(s, id) && !HasLock(s.calls[id].stage)
    ensures CallOk(t, id)
  {
  }

  lemma BystandersOk(s: State, t: State, actor: CallId)
    requires Core(s) && Evolves(s, t)
    requires forall id :: id in t.calls && id != actor ==> id in s.calls && t.calls[id] == s.calls[id]
    requires s.lock == None || s.lock == Some(actor)
    requires actor in t.calls ==> CallOk(t, actor)
    ensures CallsOk(t)
  {
    hide CallOk, Evolves, ConnOk;
    forall id | id in t.calls && id != actor
      ensures CallOk(t, id)
    {
      BystanderOk(s, t, id);
    }
  }

  // ---------------------------------------------------------------------------
  // Steps of calls that touch no connection
  // ---------------------------------------------------------------------------

  /** Nothing about a call that does not move depends on the other calls. */
  lemma SameConnsOk(s: State, t: State, id: CallId)
    requires id in s.calls && id in t.calls && t.calls[id] == s.calls[id] && CallOk(s, id)
    requires t.conns == s.conns && t.pool == s.pool && t.allowed == s.allowed
    ensures CallOk(t, id)
  {
    hide Settled;
  }

  lemma IdleKept(s: State, t: State)
    requires IdleOk(s) && t.conns == s.conns && t.pool == s.pool
    requires forall c :: c in s.conns && InUse(s, c) && Pooled(s, c) && !InUse(t, c) ==> Idle(s.conns[c])
    ensures IdleOk(t)
  {
    forall c | c in t.conns && Pooled(t, c) && !InUse(t, c)
      ensures Idle(t.conns[c])
    {
      assert Pooled(s, c);
    }
  }

  /** One call moves on, keeping the mutex, its connection and its place in the logs as they are. */
  lemma CallStepKeeps(s: State, id: CallId, call: Call)
    requires id in s.calls
    requires var was := s.calls[id];
             && HasLock(call.stage) == HasLock(was.stage)
             && (Begun(was.stage) ==> Begun(call.stage)) && (BeforeSend(call.stage) ==> BeforeSend(was.stage))
             && call.ticket == was.ticket && call.bytes == was.bytes
             && forall c :: UsesConn(was.stage, c) ==> UsesConn(call.stage, c)
    requires Core(s) && CallOk(s.(calls := s.calls[id := call]), id)
    ensures Core(s.(calls := s.calls[id := call]))
  {
    hide ConnOk, Settled, CallOk;
    var t := s.(calls := s.calls[id := call]);
    forall k | k in t.calls && k != id
      ensures CallOk(t, k)
    {
      SameConnsOk(s, t, k);
    }
    IdleKept(s, t);
  }

  lemma StepArrive(s: State, id: CallId, addr: Addr, n: Int64)
    requires Core(s) && Enabled(s, Arrive(id, addr, n))
    ensures Core(Apply(s, Arrive(id, addr, n)))
  {
    hide ConnOk, Settled;
    var t := Apply(s, Arrive(id, addr, n));
    assert CallOk(t, id);
    hide CallOk;
    forall k | k in t.calls && k != id
      ensures CallOk(t, k)
    {
      SameConnsOk(s, t, k);
    }
    IdleKept(s, t);
  }

  lemma StepCheck(s: State, id: CallId)
    requires Core(s) && Enabled(s, Check(id))
    ensures Core(Apply(s, Check(id)))
  {
    hide ConnOk, Settled;
    var t := Apply(s, Check(id));
    assert CallOk(s, id);
    assert CallOk(t, id);
    hide CallOk;
    CallStepKeeps(s, id, t.calls[id]);
  }

  lemma StepAcquire(s: State, id: CallId)
    requires Core(s) && Enabled(s, Acquire(id))
    ensures Core(Apply(s, Acquire(id)))
  {
    hide ConnOk, Settled;
    var t := Apply(s, Acquire(id));
    forall k | k in t.calls && k != id
      ensures CallOk(t, k)
    {
      SameConnsOk(s, t, k);
    }
    IdleKept(s, t);
  }

  lemma StepCheckContext(s: State, id: CallId)
    requires Core(s) && Enabled(s, CheckContext(id))
    ensures Core(Apply(s, CheckContext(id)))
  {
    hide ConnOk, Settled;
    var t := Apply(s, CheckContext(id));
    assert CallOk(s, id);
    assert CallOk(t, id);
    hide CallOk;
    CallStepKeeps(s, id, t.calls[id]);
  }

  lemma StepDialFails(s: State, id: CallId)
    requires Core(s) && Enabled(s, DialFails(id))
    ensures Core(Apply(s, DialFails(id)))
  {
    hide ConnOk, Settled;
    var t := Apply(s, DialFails(id));
    assert CallOk(s, id);
    assert CallOk(t, id);
    hide CallOk;
    CallStepKeeps(s, id, t.calls[id]);
  }

  lemma StepReuse(s: State, id: CallId)
    requires Core(s) && Enabled(s, Reuse(id))
    ensures Core(Apply(s, Reuse(id)))
  {
    hide ConnOk, Settled;
    var t := Apply(s, Reuse(id));
    var c := s.pool[s.calls[id].addr];
    assert HasLock(s.calls[id].stage) && CallOk(s, id);
    assert Pooled(s, c) && !InUse(s, c);
    assert CallOk(t, id);
    hide CallOk;
    CallStepKeeps(s, id, t.calls[id]);
  }

  lemma StepSendFails(s: State, id: CallId)
    requires Core(s) && Enabled(s, SendFails(id))
    ensures Core(Apply(s, SendFails(id)))
  {
    hide ConnOk, Settled;
    var t := Apply(s, SendFails(id));
    assert CallOk(s, id);
    assert CallOk(t, id);
    hide CallOk;
    CallStepKeeps(s, id, t.calls[id]);
  }

  lemma StepStopTripwire(s: State, id: CallId)
    requires Core(s) && Enabled(s, StopTripwire(id))
    ensures Core(Apply(s, StopTripwire(id)))
  {
    hide ConnOk, Settled;
    var t := Apply(s, StopTripwire(id));
    assert CallOk(s, id);
    assert CallOk(t, id);
    hide CallOk;
    CallStepKeeps(s, id, t.calls[id]);
  }

  lemma StepRelease(s: State, id: CallId)
    requires Core(s) && Enabled(s, Release(id))
    ensures Core(Apply(s, Release(id)))
  {
    hide ConnOk, Settled;
    var t := Apply(s, Release(id));
    assert HasLock(s.calls[id].stage) && CallOk(s, id);
    assert CallOk(t, id);
    forall k | k in t.calls && k != id
      ensures CallOk(t, k)
    {
      SameConnsOk(s, t, k);
    }
    IdleKept(s, t);
  }

  lemma StepCancel(s: State, id: CallId)
    requires Core(s) && Enabled(s, Cancel(id))
    ensures Core(Apply(s, Cancel(id)))
  {
    hide ConnOk, Settled;
    var t := Apply(s, Cancel(id));
    assert CallOk(s, id);
    assert CallOk(t, id);
    hide CallOk;
    CallStepKeeps(s, id, t.calls[id]);
  }

  lemma StepFire(s: State, id: CallId)
    requires Core(s) && Enabled(s, Fire(id))
    ensures Core(Apply(s, Fire(id)))
  {
    hide ConnOk, Settled;
    var t := Apply(s, Fire(id));
    assert CallOk(s, id);
    assert CallOk(t, id);
    hide CallOk;
    CallStepKeeps(s, id, t.calls[id]);
  }

  // ---------------------------------------------------------------------------
  // Steps of the call that holds the mutex, on its connection
  // ---------------------------------------------------------------------------

  lemma StepDial(s: State, id: CallId, c: ConnId)
    requires Core(s) && Enabled(s, Dial(id, c))
    ensures Core(Apply(s, Dial(id, c)))
  {
    hide ConnOk, CallOk, Settled;
    var t := Apply(s, Dial(id, c));
    assert HasLock(s.calls[id].stage);
    DialCallsOk(s, id, c);
    DialedIsOk(s.calls[id].addr);
    hide CallsOk;
    assert LockOk(t) && PoolOk(t) && ConnsOk(t);
    hide LockOk, ConnsOk;
    forall d | d in t.conns && Pooled(t, d) && !InUse(t, d)
      ensures Idle(t.conns[d])
    {
      assert d != c && Pooled(s, d);
    }
  }

  lemma DialCallsOk(s: State, id: CallId, c: ConnId)
    requires Core(s) && Enabled(s, Dial(id, c))
    ensures CallsOk(Apply(s, Dial(id, c)))
  {
    var t := Apply(s, Dial(id, c));
    DialCallOk(s, id, c);
    DialEvolves(s, id, c);
    hide CallOk, Evolves, IdleOk, PoolOk, ConnsOk;
    assert HasLock(s.calls[id].stage);
    BystandersOk(s, t, id);
  }

  lemma DialEvolves(s: State, id: CallId, c: ConnId)
    requires Enabled(s, Dial(id, c))
    ensures Evolves(s, Apply(s, Dial(id, c)))
  {
    hide Dialed;
  }

  lemma DialCallOk(s: State, id: CallId, c: ConnId)
    requires Core(s) && Enabled(s, Dial(id, c))
    ensures CallOk(Apply(s, Dial(id, c)), id)
  {
    hide ConnOk, Settled, IdleOk, LockOk, PoolOk, ConnsOk;
    assert CallOk(s, id);
    DialedIsOk(s.calls[id].addr);
    hide CallsOk;
  }

  /** A call with a connection is about to send on one that is idle and its own peer's. */
  lemma ReadyToSend(s: State, id: CallId)
    requires id in s.calls && CallOk(s, id) && s.calls[id].stage.Connected?
    ensures var call, c := s.calls[id], s.calls[id].stage.conn;
            Valid(s, call) && Pooled(s, c) && s.conns[c].addr == call.addr && Idle(s.conns[c])
  {
    hide ConnOk, Settled, OutcomeOk, Harmless, Uses;
  }

  lemma BeginCallOk(s: State, id: CallId)
    requires Enabled(s, BeginSend(id)) && ConnOk(s.conns[s.calls[id].stage.conn]) && CallOk(s, id)
    ensures CallOk(Apply(s, BeginSend(id)), id)
    ensures ConnOk(Apply(s, BeginSend(id)).conns[s.calls[id].stage.conn])
  {
    hide ConnOk, OutcomeOk, Harmless;
    var call := s.calls[id];
    var c := call.stage.conn;
    ReadyToSend(s, id);
    BeginKeeps(s.conns[c], Entry(call.ticket, id, call.bytes));
    hide Settled;
    assert Uses(Apply(s, BeginSend(id)), id, c);
    hide Uses;
  }

  /** One call and one connection change, and nothing else. */
  function With(s: State, id: CallId, call: Call, c: ConnId, conn: Conn): State {
    s.(calls := s.calls[id := call], conns := s.conns[c := conn])
  }

  /** A call moves on with its connection, without giving it up. */
  lemma ConnStepKeeps(s: State, id: CallId, call: Call, c: ConnId, conn: Conn)
    requires id in s.calls && c in s.conns
    requires UsesConn(s.calls[id].stage, c) && UsesConn(call.stage, c)
    requires Grows(s.conns[c], conn) && conn.closed == s.conns[c].closed
    requires ConnOk(conn) && Core(s) && CallOk(With(s, id, call, c, conn), id)
    ensures Core(With(s, id, call, c, conn))
  {
    var t := With(s, id, call, c, conn);
    hide ConnOk, Settled, CallOk;
    assert HasLock(s.calls[id].stage) && HasLock(t.calls[id].stage);
    assert Evolves(s, t) && LockOk(t);
    assert CallsOk(t) by {
      hide PoolOk, ConnsOk, Evolves, IdleOk;
      BystandersOk(s, t, id);
    }
    hide CallsOk, Evolves;
    assert PoolOk(t) && ConnsOk(t);
    hide PoolOk, ConnsOk;
    forall d | d in t.conns && Pooled(t, d) && !InUse(t, d)
      ensures Idle(t.conns[d])
    {
      assert Pooled(s, d) && d != c;
    }
  }

  lemma StepBeginSend(s: State, id: CallId)
    requires Core(s) && Enabled(s, BeginSend(id))
    ensures Core(Apply(s, BeginSend(id)))
  {
    hide Settled, CallOk, ConnOk;
    var t := Apply(s, BeginSend(id));
    var c := s.calls[id].stage.conn;
    assert CallOk(s, id) && ConnOk(s.conns[c]);
    BeginCallOk(s, id);
    hide Core;
    ConnStepKeeps(s, id, t.calls[id], c, t.conns[c]);
  }

  lemma StepWrite(s: State, id: CallId)
    requires Core(s) && Enabled(s, Write(id))
    ensures Core(Apply(s, Write(id)))
  {
    hide ConnOk, Frame;
    var t := Apply(s, Write(id));
    var c := s.calls[id].stage.conn;
    assert HasLock(s.calls[id].stage) && CallOk(s, id);
    PutKeeps(s.conns[c]);
    assert CallOk(t, id);
    ConnStepKeeps(s, id, t.calls[id], c, t.conns[c]);
  }

  lemma StepAcked(s: State, id: CallId)
    requires Core(s) && Enabled(s, Acked(id))
    ensures Core(Apply(s, Acked(id)))
  {
    hide ConnOk, Frame, Settled;
    var t := Apply(s, Acked(id));
    var c := s.calls[id].stage.conn;
    assert HasLock(s.calls[id].stage) && CallOk(s, id);
    TakeAckKeeps(s.conns[c]);
    assert CallOk(t, id);
    ConnStepKeeps(s, id, t.calls[id], c, t.conns[c]);
  }

  /** What a call knows of its connection once the tripwire is stopped or has fired. */
  lemma ReadyToSettle(s: State, id: CallId)
    requires id in s.calls && CallOk(s, id) && s.calls[id].stage.Stopped?
    ensures var call, c := s.calls[id], s.calls[id].stage.conn;
            && Uses(s, id, c) && (call.stage.ok ==> Settled(s.conns[c]))
            && (call.stage.stopped ==> call.tripwire == Disarmed && !s.conns[c].expired)
            && (!call.stage.stopped ==> call.tripwire == Fired(c) || call.tripwire == Landed(c))
  {
    hide ConnOk, Settled, OutcomeOk, Harmless;
  }

  /** A call that has decided what to do with its connection has an honest outcome and leaves no tripwire on a pooled connection. */
  lemma SettlingCallOk(s: State, id: CallId)
    requires Enabled(s, WorkerProtocol.Step.Settle(id)) && CallOk(s, id) && ConnOk(s.conns[s.calls[id].stage.conn]) && PoolOk(s)
    ensures CallOk(Apply(s, WorkerProtocol.Step.Settle(id)), id)
  {
    hide ConnOk;
    var t := Apply(s, WorkerProtocol.Step.Settle(id));
    var conn := s.conns[s.calls[id].stage.conn];
    ReadyToSettle(s, id);
    if s.calls[id].stage.ok {
      SettledIsClean(conn);
    }
    hide Settled;
    assert Harmless(t, t.calls[id].tripwire);
    assert OutcomeOk(t, id, t.calls[id].stage.outcome);
    hide Harmless, OutcomeOk, Uses, PoolOk;
  }

  /** Settling keeps the connection as it is, or closes it and takes it out of the pool. */
  lemma SettlingConnsOk(s: State, id: CallId)
    requires Enabled(s, WorkerProtocol.Step.Settle(id)) && Uses(s, id, s.calls[id].stage.conn) && PoolOk(s) && ConnsOk(s)
    ensures var t := Apply(s, WorkerProtocol.Step.Settle(id));
            PoolOk(t) && ConnsOk(t) && Evolves(s, t)
  {
    hide ConnOk;
    BreakingKeepsOk(s.conns[s.calls[id].stage.conn]);
    hide Settled;
  }

  /** After the send: a connection that is kept is idle, and one that is dropped is out of every later call's reach. */
  lemma SettlingIdleOk(s: State, id: CallId)
    requires Enabled(s, WorkerProtocol.Step.Settle(id)) && CallOk(s, id) && s.lock == Some(id) && IdleOk(s)
    ensures IdleOk(Apply(s, WorkerProtocol.Step.Settle(id)))
  {
    hide CallOk, Settled;
    var t := Apply(s, WorkerProtocol.Step.Settle(id));
    ReadyToSettle(s, id);
    forall d | d in t.conns && Pooled(t, d) && !InUse(t, d)
      ensures Idle(t.conns[d])
    {
      assert Pooled(s, d);
    }
  }

  lemma SettlerFacts(s: State, id: CallId)
    requires Core(s) && id in s.calls && s.calls[id].stage.Stopped? && s.calls[id].stage.conn in s.conns
    ensures s.lock == Some(id) && CallOk(s, id) && Uses(s, id, s.calls[id].stage.conn) && ConnOk(s.conns[s.calls[id].stage.conn])
  {
    hide ConnOk, Settled, OutcomeOk, Harmless, IdleOk, PoolOk;
    assert HasLock(s.calls[id].stage);
    assert CallOk(s, id);
    hide Uses;
  }

  lemma StepSettle(s: State, id: CallId)
    requires Core(s) && Enabled(s, WorkerProtocol.Step.Settle(id))
    ensures Core(Apply(s, WorkerProtocol.Step.Settle(id)))
  {
    hide ConnOk, CallOk, Uses, PoolOk, ConnsOk, IdleOk, LockOk;
    SettlerFacts(s, id);
    SettlingCallOk(s, id);
    SettlingConnsOk(s, id);
    SettlingIdleOk(s, id);
    SettlingLockOk(s, id);
    hide CallsOk, Evolves;
    BystandersOk(s, Apply(s, WorkerProtocol.Step.Settle(id)), id);
  }

  lemma SettlingLockOk(s: State, id: CallId)
    requires Enabled(s, WorkerProtocol.Step.Settle(id)) && LockOk(s)
    ensures LockOk(Apply(s, WorkerProtocol.Step.Settle(id)))
  {
  }

  /** Nothing about the bytes and acks of a connection depends on its being closed, expired or abandoned. */
  lemma BreakingKeepsOk(c: Conn)
    ensures ConnOk(c.(closed := true)) == ConnOk(c) == ConnOk(c.(expired := true)) == ConnOk(c.(receiverUp := false))
    ensures Settled(c.(closed := true)) == Settled(c) == Settled(c.(expired := true)) == Settled(c.(receiverUp := false))
  {
    hide FeedAll, Frame, Drained, PhaseOk;
  }

  // ---------------------------------------------------------------------------
  // Steps that happen to a connection at any time
  // ---------------------------------------------------------------------------

  /** What a sender can see of a connection is unchanged. */
  ghost predicate SameToSender(c: Conn, d: Conn) {
    && d.addr == c.addr && d.log == c.log && d.written == c.written && d.acksRead == c.acksRead
    && d.closed == c.closed && d.expired == c.expired && c.rx.parsed <= d.rx.parsed
  }

  lemma ReceiverKeeps(s: State, t: State, c: ConnId)
    requires Core(s) && c in s.conns && c in t.conns
    requires t == s.(conns := s.conns[c := t.conns[c]])
    requires SameToSender(s.conns[c], t.conns[c]) && ConnOk(t.conns[c])
    ensures Core(t)
  {
    hide ConnOk;
    forall d | d in s.conns
      ensures Pooled(t, d) == Pooled(s, d) && Settled(t.conns[d]) == Settled(s.conns[d]) && Idle(t.conns[d]) == Idle(s.conns[d])
    {
    }
    forall id | id in t.calls
      ensures CallOk(t, id)
    {
      ReceiverUnseen(s, t, c, id);
    }
  }

  lemma ReceiverUnseen(s: State, t: State, c: ConnId, id: CallId)
    requires id in s.calls && CallOk(s, id) && c in s.conns && c in t.conns
    requires t == s.(conns := s.conns[c := t.conns[c]])
    requires SameToSender(s.conns[c], t.conns[c])
    ensures CallOk(t, id)
  {
  }

  lemma WriteAckKeeps(c: Conn)
    requires ConnOk(c) && c.ackOwed
    ensures ConnOk(WriteAck(c)) && SameToSender(c, WriteAck(c))
  {
    hide FeedAll, Frame, Drained, PhaseOk;
  }

  lemma ReadByteUnseen(c: Conn)
    requires c.inflight != [] && PhaseOk(c.rx)
    ensures SameToSender(c, ReadByte(c))
  {
    hide Feed, PhaseOk, Consumed;
    FeedConsumes(c.rx, c.inflight[0]);
  }

  lemma StepReceiverReads(s: State, c: ConnId)
    requires Core(s) && Enabled(s, ReceiverReads(c))
    ensures Core(Apply(s, ReceiverReads(c)))
  {
    hide CallOk, FeedAll, Frame, Drained, PhaseOk, ReadByte, SameToSender;
    assert ConnOk(s.conns[c]);
    ReadByteKeeps(s.conns[c]);
    ReadByteUnseen(s.conns[c]);
    hide ConnOk, ConnsOk;
    ReceiverKeeps(s, Apply(s, ReceiverReads(c)), c);
  }

  lemma StepReceiverAcks(s: State, c: ConnId)
    requires Core(s) && Enabled(s, ReceiverAcks(c))
    ensures Core(Apply(s, ReceiverAcks(c)))
  {
    hide CallOk, ConnOk, WriteAck, SameToSender;
    assert ConnOk(s.conns[c]);
    WriteAckKeeps(s.conns[c]);
    ReceiverKeeps(s, Apply(s, ReceiverAcks(c)), c);
  }

  lemma StepReceiverFails(s: State, c: ConnId)
    requires Core(s) && Enabled(s, ReceiverFails(c))
    ensures Core(Apply(s, ReceiverFails(c)))
  {
    hide CallOk, ConnOk;
    assert ConnOk(s.conns[c]);
    BreakingKeepsOk(s.conns[c]);
    ReceiverKeeps(s, Apply(s, ReceiverFails(c)), c);
  }

  lemma StepLand(s: State, id: CallId)
    requires Core(s) && Enabled(s, Land(id))
    ensures Core(Apply(s, Land(id)))
  {
    hide ConnOk, CallOk, Settled;
    var t := Apply(s, Land(id));
    BreakingKeepsOk(s.conns[s.calls[id].tripwire.conn]);
    LandMarksItsOwn(s, id);
    forall k | k in t.calls && k != id
      ensures CallOk(t, k)
    {
      LandMissesOthers(s, id, k);
    }
    hide CallsOk;
    forall d | d in t.conns && Pooled(t, d) && !InUse(t, d)
      ensures Idle(t.conns[d])
    {
      assert Pooled(s, d);
    }
  }

  /** The tripwire's owner either still has the connection or has already dropped it from the pool. */
  lemma LandMarksItsOwn(s: State, id: CallId)
    requires Enabled(s, Land(id)) && LockOk(s) && CallsOk(s)
    ensures CallOk(Apply(s, Land(id)), id)
    ensures var c := s.calls[id].tripwire.conn; Pooled(s, c) ==> s.lock == Some(id) && InUse(s, c)
  {
    hide ConnOk, Settled;
    assert CallOk(s, id);
    BreakingKeepsOk(s.conns[s.calls[id].tripwire.conn]);
    assert UsesConn(s.calls[id].stage, s.calls[id].tripwire.conn) || !Pooled(s, s.calls[id].tripwire.conn);
    hide CallsOk;
  }

  lemma LandEvolves(s: State, id: CallId)
    requires Enabled(s, Land(id))
    ensures Evolves(s, Apply(s, Land(id)))
  {
  }

  /** A call with the mutex does not use the connection that another call's tripwire expires. */
  lemma LandMissesHolder(s: State, id: CallId, k: CallId)
    requires Enabled(s, Land(id)) && k in s.calls && k != id && HasLock(s.calls[k].stage)
    requires LockOk(s) && CallsOk(s)
    ensures CallOk(Apply(s, Land(id)), k)
  {
    hide ConnOk, Settled;
    assert CallOk(s, k);
    LandMarksItsOwn(s, id);
    hide CallsOk;
  }

  /** One call's tripwire never expires the connection that another call is using. */
  lemma LandMissesOthers(s: State, id: CallId, k: CallId)
    requires Enabled(s, Land(id)) && k in s.calls && k != id
    requires LockOk(s) && CallsOk(s)
    ensures CallOk(Apply(s, Land(id)), k)
  {
    hide LockOk, CallOk, Evolves;
    if HasLock(s.calls[k].stage) {
      LandMissesHolder(s, id, k);
    } else {
      LandEvolves(s, id);
      BystanderOk(s, Apply(s, Land(id)), k);
    }
  }

  lemma StepCloseWorker(s: State)
    requires Core(s) && Enabled(s, CloseWorker)
    ensures Core(Apply(s, CloseWorker))
  {
    hide ConnOk, Settled;
    var t := Apply(s, CloseWorker);
    forall c | c in t.conns
      ensures ConnOk(t.conns[c])
    {
      BreakingKeepsOk(s.conns[c]);
      assert t.conns[c] == s.conns[c] || t.conns[c] == s.conns[c].(closed := true);
    }
    forall id | id in t.calls
      ensures CallOk(t, id)
    {
      assert !HasLock(s.calls[id].stage);
      BystanderOk(s, t, id);
    }
  }

  // ---------------------------------------------------------------------------
  // The order of sends
  // ---------------------------------------------------------------------------

  ghost predicate LogAfter(s: State, step: Step, c: ConnId)
    requires Enabled(s, step) && c in Apply(s, step).conns
  {
    var log := Apply(s, step).conns[c].log;
    if c !in s.conns then log == []
    else if step.BeginSend? && s.calls[step.id].stage.conn == c
    then log == s.conns[c].log + [Entry(s.calls[step.id].ticket, step.id, s.calls[step.id].bytes)]
    else log == s.conns[c].log
  }

  predicate OnNoConnection(step: Step) {
    step.Arrive? || step.Check? || step.Acquire? || step.CheckContext? || step.Reuse? || step.DialFails?
    || step.SendFails? || step.StopTripwire? || step.Release? || step.Cancel? || step.Fire?
  }

  lemma ConnsUntouched(s: State, step: Step)
    requires Enabled(s, step) && OnNoConnection(step)
    ensures Apply(s, step).conns == s.conns
  {
  }

  lemma LogOfOwner(s: State, step: Step, c: ConnId)
    requires Enabled(s, step) && c in Apply(s, step).conns
    requires step.Dial? || step.BeginSend? || step.Write? || step.Acked? || step.Settle?
    ensures LogAfter(s, step, c)
  {
    hide Frame, Failure;
    if c in s.conns {
      OpsKeepLog(s.conns[c]);
      hide Put, TakeAck;
    }
  }

  lemma LogOfOthers(s: State, step: Step, c: ConnId)
    requires Enabled(s, step) && c in Apply(s, step).conns
    requires step.Land? || step.ReceiverReads? || step.ReceiverAcks? || step.ReceiverFails?
    ensures LogAfter(s, step, c)
  {
    hide Feed;
    if c in s.conns {
      OpsKeepLog(s.conns[c]);
      hide ReadByte, WriteAck;
    }
  }

  lemma LogOfClosed(s: State, c: ConnId)
    requires Enabled(s, CloseWorker) && c in Apply(s, CloseWorker).conns
    ensures LogAfter(s, CloseWorker, c)
  {
  }

  /** Only the start of a send adds to a log. */
  lemma LogsAfter(s: State, step: Step, c: ConnId)
    requires Enabled(s, step) && c in Apply(s, step).conns
    ensures LogAfter(s, step, c)
  {
    hide Apply, Enabled;
    if OnNoConnection(step) {
      ConnsUntouched(s, step);
    } else if step.Dial? || step.BeginSend? || step.Write? || step.Acked? || step.Settle? {
      hide LogAfter;
      LogOfOwner(s, step, c);
    } else {
      hide LogAfter;
      if step.CloseWorker? {
        LogOfClosed(s, c);
      } else {
        LogOfOthers(s, step, c);
      }
    }
  }

  lemma OpsKeepLog(c: Conn)
    ensures WriteAck(c).log == c.log
    ensures forall b :: Put(c, b).log == c.log
    ensures c.acks > 0 ==> TakeAck(c).log == c.log
    ensures c.inflight != [] ==> ReadByte(c).log == c.log
  {
    hide Feed;
  }

  /** A send begun stays begun, and keeps its ticket and size. */
  lemma BegunAfter(s: State, step: Step, id: CallId)
    requires Enabled(s, step) && id in s.calls
    requires Begun(s.calls[id].stage) || step == BeginSend(id)
    ensures var t := Apply(s, step);
            id in t.calls && Begun(t.calls[id].stage) && t.calls[id].ticket == s.calls[id].ticket && t.calls[id].bytes == s.calls[id].bytes
  {
    hide Frame, ReadByte, Begin, Put, TakeAck, WriteAck, Dialed;
  }

  /** The tickets spoken for only grow in number, and a send that begins takes the next. */
  lemma BoundAfter(s: State, step: Step)
    requires Enabled(s, step) && LockOk(s)
    requires s.lock.Some? ==> s.lock.value in s.calls && s.calls[s.lock.value].ticket + 1 == s.tickets
    ensures var t := Apply(s, step);
            && Bound(s) <= Bound(t)
            && (t.lock.Some? ==> t.lock.value in t.calls && t.calls[t.lock.value].ticket + 1 == t.tickets)
            && (step.BeginSend? ==> step.id in s.calls && s.calls[step.id].ticket == Bound(s) < Bound(t))
  {
    hide Frame, ReadByte, Begin, Put, TakeAck, WriteAck, Dialed;
    assert step.BeginSend? ==> HasLock(s.calls[step.id].stage);
    assert s.lock.Some? ==> HasLock(s.calls[s.lock.value].stage);
  }

  lemma LogKept(s: State, t: State, log: seq<Entry>, bound: nat)
    requires LogOk(s, log, bound) && bound <= Bound(t)
    requires forall k :: k in s.calls && Begun(s.calls[k].stage) ==>
      k in t.calls && Begun(t.calls[k].stage) && t.calls[k].ticket == s.calls[k].ticket && t.calls[k].bytes == s.calls[k].bytes
    ensures LogOk(t, log, Bound(t))
  {
  }

  lemma LogGrows(s: State, t: State, log: seq<Entry>, bound: nat, e: Entry)
    requires LogOk(s, log, bound) && LogOk(t, log, Bound(t))
    requires EntryOk(t, e) && e.ticket == bound < Bound(t)
    ensures LogOk(t, log + [e], Bound(t))
  {
  }

  /** Every step keeps the logs in the order of the tickets. */
  lemma StepKeepsOrder(s: State, step: Step)
    requires LockOk(s) && OrderOk(s) && Enabled(s, step)
    ensures OrderOk(Apply(s, step))
  {
    hide Apply, Enabled, LogOk, Bound;
    var t := Apply(s, step);
    BoundAfter(s, step);
    forall k | k in s.calls && Begun(s.calls[k].stage)
      ensures k in t.calls && Begun(t.calls[k].stage) && t.calls[k].ticket == s.calls[k].ticket && t.calls[k].bytes == s.calls[k].bytes
    {
      BegunAfter(s, step, k);
    }
    forall c | c in t.conns
      ensures LogOk(t, t.conns[c].log, Bound(t))
    {
      LogsAfter(s, step, c);
      if c !in s.conns {
        EmptyLogOk(t);
      } else {
        LogKept(s, t, s.conns[c].log, Bound(s));
        if step.BeginSend? && t.conns[c].log != s.conns[c].log {
          var e := Entry(s.calls[step.id].ticket, step.id, s.calls[step.id].bytes);
          BegunAfter(s, step, step.id);
          LogGrows(s, t, s.conns[c].log, Bound(s), e);
        }
      }
    }
  }

  lemma EmptyLogOk(t: State)
    ensures LogOk(t, [], Bound(t))
  {
  }

  // ---------------------------------------------------------------------------
  // Every run
  // ---------------------------------------------------------------------------

  lemma InitOk(s: State)
    requires Init(s)
    ensures Inv(s)
  {
  }

  lemma LockAndOrder(s: State)
    requires Inv(s)
    ensures Core(s) && LockOk(s) && OrderOk(s)
  {
  }

  /** Every step of the protocol keeps the invariant. */
  lemma StepKeepsInv(s: State, step: Step)
    requires Inv(s) && Enabled(s, step)
    ensures Inv(Apply(s, step))
  {
    hide Core, LockOk, OrderOk, Apply, Enabled;
    LockAndOrder(s);
    StepKeepsOrder(s, step);
    match step {
      case Arrive(id, addr, n) => StepArrive(s, id, addr, n);
      case Check(id) => StepCheck(s, id);
      case Acquire(id) => StepAcquire(s, id);
      case CheckContext(id) => StepCheckContext(s, id);
      case DialFails(id) => StepDialFails(s, id);
      case Reuse(id) => StepReuse(s, id);
      case Dial(id, c) => StepDial(s, id, c);
      case BeginSend(id) => StepBeginSend(s, id);
      case Write(id) => StepWrite(s, id);
      case Acked(id) => StepAcked(s, id);
      case SendFails(id) => StepSendFails(s, id);
      case StopTripwire(id) => StepStopTripwire(s, id);
      case Settle(id) => StepSettle(s, id);
      case Release(id) => StepRelease(s, id);
      case Cancel(id) => StepCancel(s, id);
      case Fire(id) => StepFire(s, id);
      case Land(id) => StepLand(s, id);
      case ReceiverReads(c) => StepReceiverReads(s, c);
      case ReceiverAcks(c) => StepReceiverAcks(s, c);
      case ReceiverFails(c) => StepReceiverFails(s, c);
      case CloseWorker => StepCloseWorker(s);
    }
  }

  lemma {:induction false} RunKeepsInv(run: seq<State>, i: nat)
    requires Run(run) && i < |run|
    ensures Inv(run[i])
  {
    hide Inv, Apply, Enabled;
    if i == 0 {
      InitOk(run[0]);
    } else {
      RunKeepsInv(run, i - 1);
      assert Next(run[i - 1], run[i - 1 + 1]);
      var step :| Enabled(run[i - 1], step) && run[i] == Apply(run[i - 1], step);
      StepKeepsInv(run[i - 1], step);
    }
  }

  /** No ticket is logged twice, on one connection or on two. */
  ghost predicate OnceOk(s: State) {
    forall c, i, d, j ::
      (c in s.conns && d in s.conns && 0 <= i < |s.conns[c].log| && 0 <= j < |s.conns[d].log|
       && s.conns[c].log[i].ticket == s.conns[d].log[j].ticket) ==> c == d && i == j
  }

  /** A call about to send has a ticket that is in no log yet. */
  lemma TicketIsNew(s: State, id: CallId, c: ConnId, i: nat)
    requires LockOk(s) && OrderOk(s) && Enabled(s, BeginSend(id)) && c in s.conns && i < |s.conns[c].log|
    ensures s.conns[c].log[i].ticket < s.calls[id].ticket
  {
    hide EntryOk;
    assert HasLock(s.calls[id].stage);
    assert LogOk(s, s.conns[c].log, Bound(s));
  }

  lemma OnceKept(s: State, step: Step)
    requires LockOk(s) && OrderOk(s) && OnceOk(s) && Enabled(s, step)
    ensures OnceOk(Apply(s, step))
  {
    hide LockOk, OrderOk, Apply;
    var t := Apply(s, step);
    forall c, i, d, j | c in t.conns && d in t.conns && 0 <= i < |t.conns[c].log| && 0 <= j < |t.conns[d].log|
      && t.conns[c].log[i].ticket == t.conns[d].log[j].ticket
      ensures c == d && i == j
    {
      LogsAfter(s, step, c);
      LogsAfter(s, step, d);
      if step.BeginSend? {
        if c in s.conns && i < |s.conns[c].log| {
          TicketIsNew(s, step.id, c, i);
        }
        if d in s.conns && j < |s.conns[d].log| {
          TicketIsNew(s, step.id, d, j);
        }
      }
    }
  }

  lemma {:induction false} RunKeepsOnce(run: seq<State>, i: nat)
    requires Run(run) && i < |run|
    ensures OnceOk(run[i])
  {
    hide Inv, Apply, Enabled;
    if i > 0 {
      RunKeepsOnce(run, i - 1);
      RunKeepsInv(run, i - 1);
      LockAndOrder(run[i - 1]);
      assert Next(run[i - 1], run[i - 1 + 1]);
      var step :| Enabled(run[i - 1], step) && run[i] == Apply(run[i - 1], step);
      OnceKept(run[i - 1], step);
    }
  }

  /**
   Framing. In every interleaving, what a connection's receiver has read in full is
   what was sent on it, in the order the calls got the mutex, short of at most the
   last send; and each entry is the size its own call asked for.
   */
  lemma FramingHolds(run: seq<State>, i: nat, c: ConnId)
    requires Run(run) && i < |run| && c in run[i].conns
    ensures var s, conn := run[i], run[i].conns[c];
            && conn.rx.parsed <= Sizes(conn.log)
            && |conn.log| <= |conn.rx.parsed| + 1
            && (forall j, k :: 0 <= j < k < |conn.log| ==> conn.log[j].ticket < conn.log[k].ticket)
            && forall j :: 0 <= j < |conn.log| ==>
                 var e := conn.log[j];
                 e.caller in s.calls && s.calls[e.caller].bytes == e.size && s.calls[e.caller].ticket == e.ticket
  {
    hide FeedAll, Frame, Drained, PhaseOk;
    RunKeepsInv(run, i);
    ParsedIsPrefix(run[i].conns[c]);
  }

  /** Whenever the mutex is free, every pooled connection is at a frame boundary with nothing in flight and no tripwire against it. */
  lemma PoolIsClean(run: seq<State>, i: nat, a: Addr)
    requires Run(run) && i < |run| && run[i].lock == None && a in run[i].pool
    ensures run[i].pool[a] in run[i].conns
    ensures var s, c := run[i], run[i].pool[a];
            var conn := s.conns[c];
            && conn.addr == a && !conn.closed && !conn.expired
            && conn.inflight == [] && conn.acks == 0 && !conn.ackOwed
            && conn.rx == Receiver(Boundary, Sizes(conn.log))
            && forall id :: id in s.calls ==> !Watches(s.calls[id].tripwire, c)
  {
    hide FeedAll, Frame, Drained, PhaseOk;
    RunKeepsInv(run, i);
    var s, c := run[i], run[i].pool[a];
    assert Pooled(s, c) && Idle(s.conns[c]);
    SettledIsClean(s.conns[c]);
    hide ConnOk;
    forall id | id in s.calls
      ensures !Watches(s.calls[id].tripwire, c)
    {
      assert CallOk(s, id) && !HasLock(s.calls[id].stage);
    }
  }

  /** A call that succeeded had its own send, of its own size to its own peer, read in full by the receiver. */
  lemma SuccessMeansConsumed(run: seq<State>, i: nat, id: CallId)
    requires Run(run) && i < |run| && id in run[i].calls
    requires run[i].calls[id].stage.Done? && run[i].calls[id].stage.outcome.Success?
    ensures var s, call := run[i], run[i].calls[id];
            var c, k := call.stage.outcome.conn, call.stage.outcome.position;
            && call.bytes > 0 && call.addr in s.allowed
            && c in s.conns && s.conns[c].addr == call.addr
            && k < |s.conns[c].log| && s.conns[c].log[k].caller == id
            && k < |s.conns[c].rx.parsed| && s.conns[c].rx.parsed[k] == call.bytes
  {
    hide FeedAll, Frame, Drained, PhaseOk;
    RunKeepsInv(run, i);
    assert CallOk(run[i], id);
    ParsedIsPrefix(run[i].conns[run[i].calls[id].stage.outcome.conn]);
  }

  /** There is no retry: over a whole run, a call begins at most one send, on one connection. */
  lemma SendsAtMostOnce(run: seq<State>, i: nat, c: ConnId, j: nat, d: ConnId, k: nat)
    requires Run(run) && i < |run| && c in run[i].conns && d in run[i].conns
    requires j < |run[i].conns[c].log| && k < |run[i].conns[d].log|
    requires run[i].conns[c].log[j].caller == run[i].conns[d].log[k].caller
    ensures c == d && j == k
  {
    hide Run;
    RunKeepsOnce(run, i);
    FramingHolds(run, i, c);
    FramingHolds(run, i, d);
  }

  /** If the receiver has not read the last send on a connection, the call that made it has not succeeded. */
  lemma UnreadMeansNoSuccess(run: seq<State>, i: nat, c: ConnId, id: CallId)
    requires Run(run) && i < |run| && c in run[i].conns && id in run[i].calls
    requires var conn := run[i].conns[c];
             |conn.log| > |conn.rx.parsed| && conn.log[|conn.log| - 1].caller == id
    ensures !(run[i].calls[id].stage.Done? && run[i].calls[id].stage.outcome.Success?)
  {
    hide Run;
    var s := run[i];
    if s.calls[id].stage.Done? && s.calls[id].stage.outcome.Success? {
      SuccessMeansConsumed(run, i, id);
      var o := s.calls[id].stage.outcome;
      SendsAtMostOnce(run, i, c, |s.conns[c].log| - 1, o.conn, o.position);
    }
  }

  /** At the moment the ack is read, the receiver has consumed every byte the call wrote and owes nothing. */
  lemma AckMeansAllRead(run: seq<State>, i: nat, id: CallId)
    requires Run(run) && i < |run| && id in run[i].calls
    requires run[i].calls[id].stage.Sent? && run[i].calls[id].stage.ok
    ensures var s, c := run[i], run[i].calls[id].stage.conn;
            && c in s.conns
            && s.conns[c].inflight == [] && s.conns[c].acks == 0 && !s.conns[c].ackOwed
            && s.conns[c].rx == Receiver(Boundary, Sizes(s.conns[c].log))
            && LastIs(s.conns[c], Entry(s.calls[id].ticket, id, s.calls[id].bytes))
  {
    hide FeedAll, Frame, Drained, PhaseOk;
    RunKeepsInv(run, i);
    assert CallOk(run[i], id);
    SettledIsClean(run[i].conns[run[i].calls[id].stage.conn]);
  }

  /** A call never sees the deadline of another: if its connection expires, its own context had ended and its own tripwire did it. */
  lemma OnlyOwnCancellation(run: seq<State>, i: nat, id: CallId, c: ConnId)
    requires Run(run) && i < |run| && id in run[i].calls
    requires UsesConn(run[i].calls[id].stage, c)
    ensures c in run[i].conns
    ensures run[i].conns[c].expired ==> run[i].calls[id].cancelled && run[i].calls[id].tripwire == Landed(c)
  {
    hide ConnOk;
    RunKeepsInv(run, i);
    assert CallOk(run[i], id);
  }

  /** Bytes of two calls never mix: at most one call is between dialing and dropping, whatever the peer. */
  lemma OneSenderAtATime(run: seq<State>, i: nat, id: CallId, other: CallId, c: ConnId, d: ConnId)
    requires Run(run) && i < |run| && id in run[i].calls && other in run[i].calls
    requires UsesConn(run[i].calls[id].stage, c) && UsesConn(run[i].calls[other].stage, d)
    ensures id == other
  {
    hide ConnOk, CallOk;
    RunKeepsInv(run, i);
    assert HasLock(run[i].calls[id].stage) && HasLock(run[i].calls[other].stage);
  }

  /** Each outcome code says what it should about the request. */
  lemma OutcomesAreHonest(run: seq<State>, i: nat, id: CallId)
    requires Run(run) && i < |run| && id in run[i].calls && run[i].calls[id].stage.Done?
    ensures var s, call := run[i], run[i].calls[id];
            match call.stage.outcome
            case InvalidArgument => call.bytes <= 0 || call.addr == ""
            case PermissionDenied => call.bytes > 0 && call.addr !in s.allowed
            case ContextError => call.cancelled && call.addr in s.allowed
            case Unavailable => call.bytes > 0 && call.addr in s.allowed
            case Success(_, _) => call.bytes > 0 && call.addr in s.allowed
  {
    hide ConnOk;
    RunKeepsInv(run, i);
    assert CallOk(run[i], id);
  }
}

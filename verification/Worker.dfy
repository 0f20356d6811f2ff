/**
 Concurrent Transfer calls on one worker (internal/worker/worker.go), as a step
 relation: calls contend for the mutex, dial or reuse a pooled connection, write a
 frame byte by byte and wait for the ack, while receivers read, contexts end,
 tripwires fire, and any connection may break, in every interleaving.

 A call's phases follow Transfer top to bottom. Each connection carries the bytes
 in flight one way and the acks in flight the other way, as two queues.
 */
module WorkerProtocol {
  import opened Results
  import opened Xfer

  type CallId = nat
  type ConnId = nat
  type Addr = string

  // ---------------------------------------------------------------------------
  // Connections
  // ---------------------------------------------------------------------------

  /** One send begun on a connection: the call's place in the lock order, and how many bytes it sends. */
  datatype Entry = Entry(ticket: nat, caller: CallId, size: Int64)

  datatype Conn = Conn(
    addr: Addr,
    inflight: seq<Byte>,   // written and not yet read by the receiver
    rx: Receiver,          // the receiver's parser
    ackOwed: bool,         // a transfer has been read and its ack not yet written
    acks: nat,             // acks written and not yet read by the sender
    receiverUp: bool,
    closed: bool,
    expired: bool,         // the deadline has been set in the past
    log: seq<Entry>,       // history: the sends begun, in order
    written: nat,          // history: how much of the last send's frame has been written
    acksRead: nat)         // history: how many acks the sender has read

  function Sizes(log: seq<Entry>): (sizes: seq<Int64>)
    ensures |sizes| == |log|
    ensures forall i :: 0 <= i < |log| ==> sizes[i] == log[i].size
  {
    seq(|log|, i requires 0 <= i < |log| => log[i].size)
  }

  function Dialed(addr: Addr): Conn {
    Conn(addr, [], Start, false, 0, true, false, false, [], 0, 0)
  }

  /** A send begins: its frame is now the one being written. */
  function Begin(c: Conn, e: Entry): Conn {
    c.(log := c.log + [e], written := 0)
  }

  function Put(c: Conn, b: Byte): Conn {
    c.(inflight := c.inflight + [b], written := c.written + 1)
  }

  function TakeAck(c: Conn): Conn
    requires c.acks > 0
  {
    c.(acks := c.acks - 1, acksRead := c.acksRead + 1)
  }

  function ReadByte(c: Conn): Conn
    requires c.inflight != []
  {
    var rx := Feed(c.rx, c.inflight[0]);
    c.(inflight := c.inflight[1..], rx := rx, ackOwed := |rx.parsed| > |c.rx.parsed|)
  }

  function WriteAck(c: Conn): Conn {
    c.(acks := c.acks + 1, ackOwed := false)
  }

  /** Where the receiver would be had it read every byte written so far: every earlier frame, and part of the last. */
  ghost function Drained(sizes: seq<Int64>, written: nat): Receiver
    requires sizes != [] ==> written <= |Frame(sizes[|sizes| - 1])|
  {
    if sizes == [] then Start
    else
      var last := |sizes| - 1;
      FeedAll(Receiver(Boundary, sizes[..last]), Frame(sizes[last])[..written])
  }

  /** All that was sent has been read and acked, and the ack has been read. */
  ghost predicate Settled(c: Conn) {
    c.acksRead == |c.log|
  }

  /** What holds of every connection, whoever uses it and whatever has failed. */
  ghost predicate ConnOk(c: Conn) {
    && PhaseOk(c.rx)
    && (forall i :: 0 <= i < |c.log| ==> c.log[i].size > 0)
    && (c.log != [] ==> c.written <= |Frame(c.log[|c.log| - 1].size)|)
    && FeedAll(c.rx, c.inflight) == Drained(Sizes(c.log), c.written)
    && c.acksRead + c.acks + (if c.ackOwed then 1 else 0) == |c.rx.parsed|
    && c.acksRead <= |c.log| <= c.acksRead + 1
    && (c.log != [] && Settled(c) ==> c.written == |Frame(c.log[|c.log| - 1].size)|)
  }

  /** Bytes a receiver has consumed since it started, for transfers of positive length. */
  ghost function Consumed(r: Receiver): int {
    (match r.phase
     case InHeader(buf) => |buf|
     case InBody(n, left) => 8 + n - left)
    + ConsumedBy(r.parsed)
  }

  ghost function ConsumedBy(parsed: seq<Int64>): nat {
    if parsed == [] then 0 else ConsumedBy(parsed[..|parsed| - 1]) + 8 + BodySize(parsed[|parsed| - 1])
  }

  ghost predicate PhaseOk(r: Receiver) {
    match r.phase
    case InHeader(buf) => |buf| <= 7
    case InBody(n, left) => 1 <= left <= n
  }

  lemma FeedConsumes(r: Receiver, b: Byte)
    requires PhaseOk(r)
    ensures PhaseOk(Feed(r, b)) && Consumed(Feed(r, b)) == Consumed(r) + 1
    ensures r.parsed <= Feed(r, b).parsed && |Feed(r, b).parsed| <= |r.parsed| + 1
  {
    hide Decode;
    var r' := Feed(r, b);
    if r'.parsed != r.parsed {
      assert r'.parsed[..|r'.parsed| - 1] == r.parsed;
    }
  }

  lemma {:induction false} FeedAllConsumes(r: Receiver, bs: seq<Byte>)
    requires PhaseOk(r)
    ensures PhaseOk(FeedAll(r, bs)) && Consumed(FeedAll(r, bs)) == Consumed(r) + |bs|
    ensures r.parsed <= FeedAll(r, bs).parsed
  {
    hide Feed, Consumed, PhaseOk;
    if bs != [] {
      FeedAllConsumes(r, bs[..|bs| - 1]);
      FeedConsumes(FeedAll(r, bs[..|bs| - 1]), bs[|bs| - 1]);
    }
  }

  /** Having read all that a finished send wrote leaves the receiver at a boundary with every length. */
  lemma DrainedWhole(sizes: seq<Int64>, written: nat)
    requires sizes != [] ==> written == |Frame(sizes[|sizes| - 1])|
    ensures Drained(sizes, written) == Receiver(Boundary, sizes)
  {
    hide FeedAll, Frame;
    if sizes != [] {
      var last := |sizes| - 1;
      FrameParses(sizes[..last], sizes[last]);
      assert Frame(sizes[last])[..written] == Frame(sizes[last]);
      assert sizes[..last] + [sizes[last]] == sizes;
    }
  }

  /** A partly written frame leaves the receiver with the earlier lengths only. */
  lemma DrainedPart(sizes: seq<Int64>, written: nat)
    requires sizes != [] && sizes[|sizes| - 1] > 0 && written <= |Frame(sizes[|sizes| - 1])|
    ensures Drained(sizes, written) == MidFrame(sizes[..|sizes| - 1], sizes[|sizes| - 1], written)
    ensures Drained(sizes, written).parsed <= sizes
    ensures written < |Frame(sizes[|sizes| - 1])| ==> Drained(sizes, written).parsed == sizes[..|sizes| - 1]
  {
    hide FeedAll, Header;
    FramePartParses(sizes[..|sizes| - 1], sizes[|sizes| - 1], written);
    assert sizes[..|sizes| - 1] + [sizes[|sizes| - 1]] == sizes;
  }

  /** What the receiver has read is a prefix of what was sent, short of at most the last send. */
  lemma ParsedIsPrefix(c: Conn)
    requires ConnOk(c)
    ensures c.rx.parsed <= Sizes(c.log)
    ensures |c.log| <= |c.rx.parsed| + 1
  {
    hide FeedAll, Drained, Frame, PhaseOk;
    FeedAllConsumes(c.rx, c.inflight);
    if c.log != [] {
      DrainedPart(Sizes(c.log), c.written);
    } else {
      DrainedWhole(Sizes(c.log), c.written);
    }
  }

  /** Once the last ack is read, nothing is left anywhere: no bytes, no acks, and the parser is at a boundary. */
  lemma SettledIsClean(c: Conn)
    requires ConnOk(c) && Settled(c)
    ensures c.rx == Receiver(Boundary, Sizes(c.log))
    ensures c.inflight == [] && c.acks == 0 && !c.ackOwed
  {
    hide FeedAll, Drained, Frame;
    ParsedIsPrefix(c);
    assert c.rx.parsed == Sizes(c.log);
    DrainedWhole(Sizes(c.log), c.written);
    FeedAllConsumes(c.rx, c.inflight);
    hide ConsumedBy, Header;
    NothingLeft(c.rx, c.inflight);
  }

  lemma NothingLeft(r: Receiver, bs: seq<Byte>)
    requires PhaseOk(r) && Consumed(Receiver(Boundary, r.parsed)) == Consumed(r) + |bs|
    ensures bs == [] && r.phase == Boundary
  {
  }

  lemma DialedIsOk(addr: Addr)
    ensures ConnOk(Dialed(addr)) && Settled(Dialed(addr))
  {
  }

  lemma BeginKeeps(c: Conn, e: Entry)
    requires ConnOk(c) && Settled(c) && e.size > 0
    ensures ConnOk(Begin(c, e)) && !Settled(Begin(c, e))
  {
    hide FeedAll, Frame, PhaseOk;
    var c' := Begin(c, e);
    var sizes := Sizes(c'.log);
    DrainedWhole(Sizes(c.log), c.written);
    assert sizes[..|sizes| - 1] == Sizes(c.log);
    assert Frame(e.size)[..0] == [];
    FeedNothing(Receiver(Boundary, Sizes(c.log)));
    assert Drained(sizes, 0) == Receiver(Boundary, Sizes(c.log));
  }

  lemma {:induction false} FeedNothing(r: Receiver)
    ensures FeedAll(r, []) == r
  {
  }

  lemma DrainedPut(sizes: seq<Int64>, written: nat)
    requires sizes != [] && written < |Frame(sizes[|sizes| - 1])|
    ensures Drained(sizes, written + 1) == Feed(Drained(sizes, written), Frame(sizes[|sizes| - 1])[written])
  {
    hide Feed, Frame;
    var frame := Frame(sizes[|sizes| - 1]);
    assert frame[..written + 1] == frame[..written] + [frame[written]];
    FeedLast(Receiver(Boundary, sizes[..|sizes| - 1]), frame[..written], frame[written]);
    hide FeedAll;
  }

  lemma PutKeeps(c: Conn)
    requires ConnOk(c) && !Settled(c)
    requires c.log != [] && c.written < |Frame(c.log[|c.log| - 1].size)|
    ensures ConnOk(Put(c, Frame(c.log[|c.log| - 1].size)[c.written]))
  {
    hide Feed, FeedAll, Frame, Drained, PhaseOk;
    FeedLast(c.rx, c.inflight, Frame(c.log[|c.log| - 1].size)[c.written]);
    DrainedPut(Sizes(c.log), c.written);
  }

  lemma {:induction false} FeedLast(r: Receiver, bs: seq<Byte>, b: Byte)
    ensures FeedAll(r, bs + [b]) == Feed(FeedAll(r, bs), b)
  {
    assert (bs + [b])[..|bs|] == bs;
  }

  lemma ReadByteKeeps(c: Conn)
    requires ConnOk(c) && c.inflight != [] && !c.ackOwed
    ensures ConnOk(ReadByte(c))
  {
    hide Feed, Frame, Drained, PhaseOk, Consumed;
    FeedConsumes(c.rx, c.inflight[0]);
    assert [c.inflight[0]] + c.inflight[1..] == c.inflight;
    FeedAllAppends(c.rx, [c.inflight[0]], c.inflight[1..]);
    FeedOne(c.rx, c.inflight[0]);
    hide FeedAll;
  }

  lemma {:induction false} FeedOne(r: Receiver, b: Byte)
    ensures FeedAll(r, [b]) == Feed(r, b)
  {
    hide Feed;
    assert [b][..0] == [];
    FeedNothing(r);
  }

  lemma TakeAckKeeps(c: Conn)
    requires ConnOk(c) && !Settled(c) && c.acks > 0
    requires c.log != [] && c.written == |Frame(c.log[|c.log| - 1].size)|
    ensures ConnOk(TakeAck(c)) && Settled(TakeAck(c))
  {
    hide FeedAll, Frame, Drained, PhaseOk;
  }

  // ---------------------------------------------------------------------------
  // Calls
  // ---------------------------------------------------------------------------

  /** context.AfterFunc's tripwire on a connection; once it has fired, its goroutine expires the deadline at any later time. */
  datatype Tripwire = Unset | Armed(conn: ConnId) | Fired(conn: ConnId) | Landed(conn: ConnId) | Disarmed

  /** Success names, as history, the connection and position of the send that succeeded. */
  datatype Outcome = Success(conn: ConnId, position: nat) | InvalidArgument | PermissionDenied | ContextError | Unavailable

  datatype Stage =
    | Arrived                                              // before any check
    | Waiting                                              // blocked on the mutex
    | Holding                                              // has the mutex, ctx not yet checked
    | Cleared                                              // ctx was live; about to get a connection
    | Connected(conn: ConnId)                              // has a connection; tripwire not yet set
    | Sending(conn: ConnId, pos: nat)                      // inside Send, pos bytes of the frame written
    | Sent(conn: ConnId, ok: bool)                         // Send returned
    | Stopped(conn: ConnId, ok: bool, stopped: bool)       // the tripwire was stopped, or had fired
    | Leaving(outcome: Outcome)                            // about to release the mutex
    | Done(outcome: Outcome)

  datatype Call = Call(addr: Addr, bytes: Int64, stage: Stage, tripwire: Tripwire, cancelled: bool, ticket: nat)

  predicate HasLock(st: Stage) {
    match st
    case Arrived => false
    case Waiting => false
    case Done(_) => false
    case _ => true
  }

  predicate UsesConn(st: Stage, c: ConnId) {
    match st
    case Connected(d) => c == d
    case Sending(d, _) => c == d
    case Sent(d, _) => c == d
    case Stopped(d, _, _) => c == d
    case _ => false
  }

  /** tickets numbers the acquisitions of the mutex. */
  datatype State = State(
    allowed: set<Addr>, lock: Option<CallId>, tickets: nat,
    pool: map<Addr, ConnId>, conns: map<ConnId, Conn>, calls: map<CallId, Call>)

  ghost predicate Init(s: State) {
    s.lock == None && s.pool == map[] && s.conns == map[] && s.calls == map[]
  }

  function At(s: State, id: CallId, st: Stage): State
    requires id in s.calls
  {
    s.(calls := s.calls[id := s.calls[id].(stage := st)])
  }

  function Failure(c: Call): Outcome {
    if c.cancelled then ContextError else Unavailable
  }

  // ---------------------------------------------------------------------------
  // Steps
  // ---------------------------------------------------------------------------

  datatype Step =
    | Arrive(id: CallId, addr: Addr, bytes: Int64)
    | Check(id: CallId)
    | Acquire(id: CallId)
    | CheckContext(id: CallId)
    | Reuse(id: CallId)
    | Dial(id: CallId, dialed: ConnId)
    | DialFails(id: CallId)
    | BeginSend(id: CallId)
    | Write(id: CallId)
    | Acked(id: CallId)
    | SendFails(id: CallId)
    | StopTripwire(id: CallId)
    | Settle(id: CallId)
    | Release(id: CallId)
    | Cancel(id: CallId)
    | Fire(id: CallId)
    | Land(id: CallId)
    | ReceiverReads(conn: ConnId)
    | ReceiverAcks(conn: ConnId)
    | ReceiverFails(conn: ConnId)
    | CloseWorker

  predicate InStage(s: State, id: CallId, p: Stage -> bool) {
    id in s.calls && p(s.calls[id].stage)
  }

  predicate Enabled(s: State, step: Step) {
    match step
    case Arrive(id, _, _) => id !in s.calls
    case Check(id) => InStage(s, id, (st: Stage) => st.Arrived?)
    case Acquire(id) => InStage(s, id, (st: Stage) => st.Waiting?) && s.lock == None
    case CheckContext(id) => InStage(s, id, (st: Stage) => st.Holding?)
    case Reuse(id) => InStage(s, id, (st: Stage) => st.Cleared?) && s.calls[id].addr in s.pool
    case Dial(id, dialed) => InStage(s, id, (st: Stage) => st.Cleared?) && s.calls[id].addr !in s.pool && dialed !in s.conns
    case DialFails(id) => InStage(s, id, (st: Stage) => st.Cleared?) && s.calls[id].addr !in s.pool
    case BeginSend(id) => InStage(s, id, (st: Stage) => st.Connected?) && s.calls[id].stage.conn in s.conns
    case Write(id) =>
      && InStage(s, id, (st: Stage) => st.Sending?) && s.calls[id].stage.conn in s.conns
      && s.calls[id].stage.pos < |Frame(s.calls[id].bytes)|
    case Acked(id) =>
      && InStage(s, id, (st: Stage) => st.Sending?) && s.calls[id].stage.conn in s.conns
      && s.calls[id].stage.pos == |Frame(s.calls[id].bytes)| && s.conns[s.calls[id].stage.conn].acks > 0
    case SendFails(id) => InStage(s, id, (st: Stage) => st.Sending?)
    case StopTripwire(id) => InStage(s, id, (st: Stage) => st.Sent?)
    case Settle(id) => InStage(s, id, (st: Stage) => st.Stopped?) && s.calls[id].stage.conn in s.conns
    case Release(id) => InStage(s, id, (st: Stage) => st.Leaving?)
    case Cancel(id) => id in s.calls
    case Fire(id) => id in s.calls && s.calls[id].cancelled && s.calls[id].tripwire.Armed?
    case Land(id) => id in s.calls && s.calls[id].tripwire.Fired? && s.calls[id].tripwire.conn in s.conns
    case ReceiverReads(c) => c in s.conns && s.conns[c].receiverUp && s.conns[c].inflight != [] && !s.conns[c].ackOwed
    case ReceiverAcks(c) => c in s.conns && s.conns[c].receiverUp && s.conns[c].ackOwed
    case ReceiverFails(c) => c in s.conns
    case CloseWorker => s.lock == None
  }

  function Apply(s: State, step: Step): State
    requires Enabled(s, step)
  {
    match step
    case Arrive(id, addr, bytes) => s.(calls := s.calls[id := Call(addr, bytes, Arrived, Unset, false, 0)])
    case Check(id) =>
      var c := s.calls[id];
      At(s, id,
         if c.bytes <= 0 || c.addr == "" then Done(InvalidArgument)
         else if c.addr !in s.allowed then Done(PermissionDenied)
         else Waiting)
    case Acquire(id) =>
      s.(lock := Some(id), tickets := s.tickets + 1,
         calls := s.calls[id := s.calls[id].(stage := Holding, ticket := s.tickets)])
    case CheckContext(id) => At(s, id, if s.calls[id].cancelled then Leaving(ContextError) else Cleared)
    case Reuse(id) => At(s, id, Connected(s.pool[s.calls[id].addr]))
    case Dial(id, dialed) =>
      var addr := s.calls[id].addr;
      At(s, id, Connected(dialed)).(pool := s.pool[addr := dialed], conns := s.conns[dialed := Dialed(addr)])
    case DialFails(id) => At(s, id, Leaving(Failure(s.calls[id])))
    case BeginSend(id) =>
      // AfterFunc on a context that has already ended fires at once.
      var call := s.calls[id];
      var c := call.stage.conn;
      s.(calls := s.calls[id := call.(stage := Sending(c, 0), tripwire := if call.cancelled then Fired(c) else Armed(c))],
         conns := s.conns[c := Begin(s.conns[c], Entry(call.ticket, id, call.bytes))])
    case Write(id) =>
      var call := s.calls[id];
      var c, pos := call.stage.conn, call.stage.pos;
      At(s, id, Sending(c, pos + 1)).(conns := s.conns[c := Put(s.conns[c], Frame(call.bytes)[pos])])
    case Acked(id) =>
      var c := s.calls[id].stage.conn;
      At(s, id, Sent(c, true)).(conns := s.conns[c := TakeAck(s.conns[c])])
    case SendFails(id) => At(s, id, Sent(s.calls[id].stage.conn, false))
    case StopTripwire(id) =>
      // stop() is true exactly when it got there before the tripwire fired.
      var call := s.calls[id];
      var stopped := call.tripwire.Armed?;
      s.(calls := s.calls[id := call.(
        stage := Stopped(call.stage.conn, call.stage.ok, stopped),
        tripwire := if stopped then Disarmed else call.tripwire)])
    case Settle(id) =>
      var call := s.calls[id];
      var c, ok := call.stage.conn, call.stage.ok;
      var left := At(s, id, Leaving(if ok then Success(c, if s.conns[c].log == [] then 0 else |s.conns[c].log| - 1) else Failure(call)));
      if !call.stage.stopped || !ok
      then left.(conns := s.conns[c := s.conns[c].(closed := true)], pool := s.pool - {call.addr})
      else left
    case Release(id) => At(s, id, Done(s.calls[id].stage.outcome)).(lock := None)
    case Cancel(id) => s.(calls := s.calls[id := s.calls[id].(cancelled := true)])
    case Fire(id) => s.(calls := s.calls[id := s.calls[id].(tripwire := Fired(s.calls[id].tripwire.conn))])
    case Land(id) =>
      var c := s.calls[id].tripwire.conn;
      s.(calls := s.calls[id := s.calls[id].(tripwire := Landed(c))],
         conns := s.conns[c := s.conns[c].(expired := true)])
    case ReceiverReads(c) => s.(conns := s.conns[c := ReadByte(s.conns[c])])
    case ReceiverAcks(c) => s.(conns := s.conns[c := WriteAck(s.conns[c])])
    case ReceiverFails(c) => s.(conns := s.conns[c := s.conns[c].(receiverUp := false)])
    case CloseWorker =>
      s.(pool := map[], conns := map c | c in s.conns :: s.conns[c].(closed := s.conns[c].closed || c in s.pool.Values))
  }

  ghost predicate Next(s: State, t: State) {
    exists step :: Enabled(s, step) && t == Apply(s, step)
  }

  /** A run: any number of calls, in any interleaving. */
  ghost predicate Run(run: seq<State>) {
    && run != []
    && Init(run[0])
    && forall i :: 0 <= i < |run| - 1 ==> Next(run[i], run[i + 1])
  }
}

/**
 The wire format (internal/xfer/xfer.go): an 8-byte big-endian length, that many
 bytes, and one byte back from the receiver once it has read them all.
 */
module Xfer {
  type Byte = b: int | 0 <= b < 256

  const INT64_MIN := -0x8000_0000_0000_0000
  const INT64_END := 0x8000_0000_0000_0000
  const UINT64_END := 0x1_0000_0000_0000_0000

  type Int64 = n: int | INT64_MIN <= n < INT64_END

  // ---------------------------------------------------------------------------
  // The header
  // ---------------------------------------------------------------------------

  function ByteRange(k: nat): (m: nat)
    ensures m > 0
  {
    if k == 0 then 1 else 256 * ByteRange(k - 1)
  }

  /** n as k bytes, most significant first. */
  function BigEndian(n: nat, k: nat): (bs: seq<Byte>)
    ensures |bs| == k
  {
    if k == 0 then [] else BigEndian(n / 256, k - 1) + [n % 256]
  }

  function Value(bs: seq<Byte>): nat {
    if bs == [] then 0 else 256 * Value(bs[..|bs| - 1]) + bs[|bs| - 1]
  }

  lemma {:induction false} ValueInvertsBigEndian(n: nat, k: nat)
    requires n < ByteRange(k)
    ensures Value(BigEndian(n, k)) == n
  {
    if k > 0 {
      ValueInvertsBigEndian(n / 256, k - 1);
      assert BigEndian(n, k)[..k - 1] == BigEndian(n / 256, k - 1);
    }
  }

  lemma {:induction false} BigEndianInvertsValue(bs: seq<Byte>)
    ensures Value(bs) < ByteRange(|bs|)
    ensures BigEndian(Value(bs), |bs|) == bs
  {
    if bs != [] {
      var front, last := bs[..|bs| - 1], bs[|bs| - 1];
      BigEndianInvertsValue(front);
      assert Value(bs) / 256 == Value(front) && Value(bs) % 256 == last;
    }
  }

  lemma EightBytes()
    ensures ByteRange(8) == UINT64_END
  {
    assert ByteRange(2) == 0x1_0000;
    assert ByteRange(4) == 0x1_0000_0000;
    assert ByteRange(6) == 0x1_0000_0000_0000;
  }

  /** The conversions uint64(n) and int64(u). */
  function ToUnsigned(n: Int64): (u: nat)
    ensures u < UINT64_END && (u == n || u == n + UINT64_END)
  {
    if n < 0 then n + UINT64_END else n
  }

  function ToSigned(u: nat): (n: Int64)
    requires u < UINT64_END
    ensures u == n || u == n + UINT64_END
  {
    if u < INT64_END then u else u - UINT64_END
  }

  function Header(n: Int64): (bs: seq<Byte>)
    ensures |bs| == 8
  {
    BigEndian(ToUnsigned(n), 8)
  }

  function Decode(bs: seq<Byte>): Int64
    requires |bs| == 8
  {
    BigEndianInvertsValue(bs);
    EightBytes();
    ToSigned(Value(bs))
  }

  lemma DivideTwice(n: nat, m: nat)
    requires m > 0
    ensures n / 256 / m == n / (256 * m)
  {
    var q := n / 256 / m;
    var r, r' := n % 256, n / 256 % m;
    assert n == 256 * (n / 256) + r && n / 256 == m * q + r';
    assert n == q * (256 * m) + (256 * r' + r);
    QuotientOf(n, 256 * m, q, 256 * r' + r);
  }

  lemma QuotientOf(n: nat, m: nat, q: nat, r: nat)
    requires m > 0 && r < m && n == q * m + r
    ensures n / m == q
  {
    var d := n / m - q;
    assert d * m == r - n % m;
  }

  lemma {:induction false} ByteOfBigEndian(n: nat, k: nat, i: nat)
    requires i < k
    ensures BigEndian(n, k)[i] == n / ByteRange(k - 1 - i) % 256
  {
    if i < k - 1 {
      ByteOfBigEndian(n / 256, k - 1, i);
      DivideTwice(n, ByteRange(k - 2 - i));
    }
  }

  /** The order of the bytes: byte i of a header counts in units of 256^(7 - i), so the first is the most significant. */
  lemma {:induction false} HeaderIsBigEndian(n: Int64, i: nat)
    requires i < 8
    ensures Header(n)[i] == (if n < 0 then n + UINT64_END else n) / ByteRange(7 - i) % 256
  {
    ByteOfBigEndian(ToUnsigned(n), 8, i);
  }

  /** Every length survives the header, and every header is some length. */
  lemma HeaderRoundTrip(n: Int64, bs: seq<Byte>)
    requires |bs| == 8
    ensures Decode(Header(n)) == n
    ensures Header(Decode(bs)) == bs
  {
    EightBytes();
    ValueInvertsBigEndian(ToUnsigned(n), 8);
    BigEndianInvertsValue(bs);
    hide BigEndian, Value, ByteRange;
  }

  // ---------------------------------------------------------------------------
  // Frames
  // ---------------------------------------------------------------------------

  function Zeros(k: nat): (bs: seq<Byte>)
    ensures |bs| == k && forall i :: 0 <= i < k ==> bs[i] == 0
  {
    seq(k, _ => 0)
  }

  /** The length of the body: a length that is not positive has none. */
  function BodySize(n: Int64): nat {
    if n > 0 then n else 0
  }

  function Frame(n: Int64): (bs: seq<Byte>)
    ensures |bs| == 8 + BodySize(n)
  {
    Header(n) + Zeros(BodySize(n))
  }

  function Frames(sizes: seq<Int64>): seq<Byte> {
    if sizes == [] then [] else Frames(sizes[..|sizes| - 1]) + Frame(sizes[|sizes| - 1])
  }

  // ---------------------------------------------------------------------------
  // The receiver
  // ---------------------------------------------------------------------------

  /** Partway through a header, or with some of a body of n bytes to go. */
  datatype Phase = InHeader(buf: seq<Byte>) | InBody(n: Int64, left: nat)

  /** The parser of one connection and the lengths of the transfers it has read in full. */
  datatype Receiver = Receiver(phase: Phase, parsed: seq<Int64>)

  const Boundary := InHeader([])

  const Start := Receiver(Boundary, [])

  function Finish(r: Receiver, n: Int64): Receiver {
    Receiver(Boundary, r.parsed + [n])
  }

  function Feed(r: Receiver, b: Byte): Receiver {
    match r.phase
    case InHeader(buf) =>
      if |buf| != 7 then r.(phase := InHeader(buf + [b]))
      else
        var n := Decode(buf + [b]);
        if n <= 0 then Finish(r, n) else r.(phase := InBody(n, n))
    case InBody(n, left) =>
      if left <= 1 then Finish(r, n) else r.(phase := InBody(n, left - 1))
  }

  function FeedAll(r: Receiver, bs: seq<Byte>): Receiver {
    if bs == [] then r else Feed(FeedAll(r, bs[..|bs| - 1]), bs[|bs| - 1])
  }

  /** However the stream is cut into reads, the receiver ends up the same. */
  lemma {:induction false} FeedAllAppends(r: Receiver, a: seq<Byte>, b: seq<Byte>)
    ensures FeedAll(r, a + b) == FeedAll(FeedAll(r, a), b)
  {
    hide Feed;
    if b == [] {
      assert a + b == a;
    } else {
      FeedAllAppends(r, a, b[..|b| - 1]);
      assert (a + b)[..|a + b| - 1] == a + b[..|b| - 1];
    }
  }

  /** A header read from a boundary, byte by byte. */
  lemma {:induction false} FeedHeaderPart(parsed: seq<Int64>, bs: seq<Byte>)
    requires |bs| <= 7
    ensures FeedAll(Receiver(Boundary, parsed), bs) == Receiver(InHeader(bs), parsed)
  {
    if bs != [] {
      FeedHeaderPart(parsed, bs[..|bs| - 1]);
      assert bs[..|bs| - 1] + [bs[|bs| - 1]] == bs;
      hide Decode;
    }
  }

  lemma {:induction false} FeedHeader(parsed: seq<Int64>, bs: seq<Byte>)
    requires |bs| == 8
    ensures var n := Decode(bs);
            FeedAll(Receiver(Boundary, parsed), bs) ==
            if n <= 0 then Receiver(Boundary, parsed + [n]) else Receiver(InBody(n, n), parsed)
  {
    hide Decode;
    FeedHeaderPart(parsed, bs[..7]);
    assert bs[..7] + [bs[7]] == bs;
  }

  lemma {:induction false} FeedBody(parsed: seq<Int64>, n: Int64, left: nat, bs: seq<Byte>)
    requires |bs| <= left && left > 0
    ensures FeedAll(Receiver(InBody(n, left), parsed), bs) ==
            if |bs| == left then Receiver(Boundary, parsed + [n]) else Receiver(InBody(n, left - |bs|), parsed)
  {
    hide Decode;
    if bs != [] {
      FeedBody(parsed, n, left, bs[..|bs| - 1]);
    }
  }

  /** Where the receiver is after the first p bytes of a frame. */
  function MidFrame(parsed: seq<Int64>, n: Int64, p: nat): Receiver
    requires n > 0 && p <= 8 + BodySize(n)
  {
    if p < 8 then Receiver(InHeader(Header(n)[..p]), parsed)
    else if p < 8 + n then Receiver(InBody(n, 8 + n - p), parsed)
    else Receiver(Boundary, parsed + [n])
  }

  lemma FramePartParses(parsed: seq<Int64>, n: Int64, p: nat)
    requires n > 0 && p <= |Frame(n)|
    ensures FeedAll(Receiver(Boundary, parsed), Frame(n)[..p]) == MidFrame(parsed, n, p)
  {
    hide Header, Decode;
    if p < 8 {
      assert Frame(n)[..p] == Header(n)[..p];
      FeedHeaderPart(parsed, Header(n)[..p]);
    } else {
      assert Frame(n)[..p] == Header(n) + Zeros(p - 8);
      HeaderRoundTrip(n, Header(n));
      FeedAllAppends(Receiver(Boundary, parsed), Header(n), Zeros(p - 8));
      FeedHeader(parsed, Header(n));
      FeedBody(parsed, n, n, Zeros(p - 8));
      hide FeedAll;
    }
  }

  /** A whole frame is read as its length, whatever the length. */
  lemma FrameParses(parsed: seq<Int64>, n: Int64)
    ensures FeedAll(Receiver(Boundary, parsed), Frame(n)) == Receiver(Boundary, parsed + [n])
  {
    hide Header, Decode;
    if n > 0 {
      FramePartParses(parsed, n, |Frame(n)|);
      assert Frame(n)[..|Frame(n)|] == Frame(n);
    } else {
      assert Frame(n) == Header(n);
      HeaderRoundTrip(n, Header(n));
      FeedHeader(parsed, Header(n));
    }
  }

  /** The receiver reads back exactly the lengths that were framed. */
  lemma {:induction false} FramesParse(sizes: seq<Int64>)
    ensures FeedAll(Start, Frames(sizes)) == Receiver(Boundary, sizes)
  {
    hide Feed, Frame;
    if sizes != [] {
      var before, n := sizes[..|sizes| - 1], sizes[|sizes| - 1];
      FramesParse(before);
      FeedAllAppends(Start, Frames(before), Frame(n));
      FrameParses(before, n);
      assert before + [n] == sizes;
    }
  }

  // ---------------------------------------------------------------------------
  // Send and Serve
  // ---------------------------------------------------------------------------

  const CHUNK := 0x10_0000

  /** The sender's end of a connection that takes `room` more bytes before it breaks, and has `acks` to hand back. */
  class Wire {
    var written: seq<Byte>
    var room: nat
    var acks: nat

    constructor (room: nat, acks: nat)
      ensures written == [] && this.room == room && this.acks == acks
    {
      written := [];
      this.room := room;
      this.acks := acks;
    }

    /** A write takes all the bytes, or fails partway. */
    method Write(p: seq<Byte>) returns (ok: bool)
      modifies this
      ensures ok <==> |p| <= old(room)
      ensures written == old(written) + p[..if |p| <= old(room) then |p| else old(room)]
      ensures room == old(room) - (if |p| <= old(room) then |p| else old(room))
      ensures acks == old(acks)
    {
      var k := if |p| <= room then |p| else room;
      ok := k == |p|;
      written := written + p[..k];
      room := room - k;
    }

    method ReadAck() returns (ok: bool)
      modifies this
      ensures ok <==> old(acks) > 0
      ensures acks == if old(acks) > 0 then old(acks) - 1 else 0
      ensures written == old(written) && room == old(room)
    {
      ok := acks > 0;
      if ok {
        acks := acks - 1;
      }
    }
  }

  /** Send puts the frame of n on the wire, all of it or as much as the connection takes, and succeeds on the ack. */
  method Send(conn: Wire, n: Int64) returns (ok: bool)
    modifies conn
    ensures ok <==> |Frame(n)| <= old(conn.room) && old(conn.acks) > 0
    ensures var k := if |Frame(n)| <= old(conn.room) then |Frame(n)| else old(conn.room);
            conn.written == old(conn.written) + Frame(n)[..k] && conn.room == old(conn.room) - k
    ensures conn.acks == if ok then old(conn.acks) - 1 else old(conn.acks)
  {
    hide Header, Frame, Zeros;
    ghost var before, room := conn.written, conn.room;
    FrameStarts(n);
    var sent := conn.Write(Header(n));
    if !sent {
      FrameCut(n, room);
      return false;
    }
    var left: int := n;
    while left > 0
      invariant left <= n && (n > 0 ==> left >= 0) && (n <= 0 ==> left == n)
      invariant var done := 8 + BodySize(n) - BodySize(left);
                && done <= room
                && conn.written == before + Frame(n)[..done]
                && conn.room == room - done
      invariant conn.acks == old(conn.acks)
      decreases left
    {
      ghost var done := 8 + n - left;
      var k := if left <= CHUNK then left else CHUNK;
      sent := conn.Write(Zeros(k));
      FrameContinues(n, done, k, if sent then k else room - done);
      if !sent {
        return false;
      }
      left := left - k;
    }
    FrameCut(n, |Frame(n)|);
    ok := conn.ReadAck();
  }

  lemma FrameStarts(n: Int64)
    ensures Frame(n)[..8] == Header(n) == Header(n)[..8]
  {
    hide Header;
  }

  lemma FrameCut(n: Int64, k: nat)
    requires k <= |Frame(n)|
    ensures k <= 8 ==> Frame(n)[..k] == Header(n)[..k]
    ensures k == |Frame(n)| ==> Frame(n)[..k] == Frame(n)
  {
    hide Header;
  }

  /** Every part of the body is zeros, so the frame goes on with the first j bytes of any chunk that fits. */
  lemma FrameContinues(n: Int64, done: nat, k: nat, j: nat)
    requires 8 <= done && done + k <= |Frame(n)| && j <= k
    ensures Frame(n)[..done] + Zeros(k)[..j] == Frame(n)[..done + j]
    ensures Zeros(k)[..k] == Zeros(k)
  {
    hide Header;
  }

  /**
   Serve over a whole incoming stream, with room for some acks before a write
   fails. It reads exactly the transfers the byte-by-byte receiver reads, acks
   each of them, and ends cleanly only at a frame boundary.
   */
  method Serve(incoming: seq<Byte>, ackRoom: nat) returns (read: seq<Int64>, acked: nat, clean: bool)
    ensures var all := FeedAll(Start, incoming);
            && (|all.parsed| <= ackRoom ==> read == all.parsed && acked == |read| && (clean <==> all.phase == Boundary))
            && (|all.parsed| > ackRoom ==> read == all.parsed[..ackRoom + 1] && acked == ackRoom && !clean)
  {
    hide Feed, FeedAll, Decode;
    var pos := 0;
    read, acked := [], 0;
    StartFed(incoming);
    while true
      invariant 0 <= pos <= |incoming|
      invariant FeedAll(Start, incoming[..pos]) == Receiver(Boundary, read)
      invariant acked == |read| <= ackRoom
      decreases |incoming| - pos
    {
      SplitStream(incoming, pos);
      var rest := incoming[pos..];
      if |rest| < 8 {
        FeedShort(read, rest);
        return read, acked, |rest| == 0;
      }
      var n := Decode(rest[..8]);
      var body := BodySize(n);
      FeedTransfer(read, rest);
      if |rest| < 8 + body {
        return read, acked, false;
      }
      pos := pos + 8 + body;
      SplitTransfer(incoming, pos - 8 - body, 8 + body);
      read := read + [n];
      if acked == ackRoom {
        SplitStream(incoming, pos);
        ParsedGrows(Receiver(Boundary, read), incoming[pos..]);
        return read, acked, false;
      }
      acked := acked + 1;
    }
  }

  lemma StartFed(bs: seq<Byte>)
    ensures FeedAll(Start, bs[..0]) == Start
  {
  }

  lemma {:induction false} SplitStream(bs: seq<Byte>, pos: nat)
    requires pos <= |bs|
    ensures FeedAll(Start, bs) == FeedAll(FeedAll(Start, bs[..pos]), bs[pos..])
  {
    assert bs[..pos] + bs[pos..] == bs;
    FeedAllAppends(Start, bs[..pos], bs[pos..]);
  }

  lemma SplitTransfer(bs: seq<Byte>, pos: nat, k: nat)
    requires pos + k <= |bs|
    ensures FeedAll(Start, bs[..pos + k]) == FeedAll(FeedAll(Start, bs[..pos]), bs[pos..][..k])
  {
    assert bs[..pos] + bs[pos..][..k] == bs[..pos + k];
    FeedAllAppends(Start, bs[..pos], bs[pos..][..k]);
  }

  lemma {:induction false} FeedShort(parsed: seq<Int64>, rest: seq<Byte>)
    requires |rest| < 8
    ensures FeedAll(Receiver(Boundary, parsed), rest) == Receiver(InHeader(rest), parsed)
  {
    FeedHeaderPart(parsed, rest);
  }

  /** One transfer read from a boundary, if its bytes are all there. */
  lemma {:induction false} FeedTransfer(parsed: seq<Int64>, rest: seq<Byte>)
    requires |rest| >= 8
    ensures var n := Decode(rest[..8]);
            var end := 8 + BodySize(n);
            && (|rest| >= end ==> FeedAll(Receiver(Boundary, parsed), rest[..end]) == Receiver(Boundary, parsed + [n]))
            && (|rest| < end ==>
                  var r := FeedAll(Receiver(Boundary, parsed), rest); r.parsed == parsed && r.phase != Boundary)
  {
    hide Decode, Feed;
    var n := Decode(rest[..8]);
    var end := 8 + BodySize(n);
    FeedHeader(parsed, rest[..8]);
    var take := if |rest| >= end then end else |rest|;
    assert rest[..8] + rest[8..take] == rest[..take];
    FeedAllAppends(Receiver(Boundary, parsed), rest[..8], rest[8..take]);
    if n > 0 {
      FeedBody(parsed, n, n, rest[8..take]);
    } else {
      assert rest[8..take] == [];
    }
    assert rest[..|rest|] == rest;
  }

  /** What has been read stays read. */
  lemma {:induction false} ParsedGrows(r: Receiver, bs: seq<Byte>)
    ensures r.parsed <= FeedAll(r, bs).parsed
  {
    hide Decode;
    if bs != [] {
      ParsedGrows(r, bs[..|bs| - 1]);
    }
  }

  /** Serving a connection that Send wrote to: the lengths sent come back in order, and a cut-off frame is not read. */
  lemma {:induction false} ServeReadsWhatSendWrote(sizes: seq<Int64>, n: Int64, p: nat)
    requires n > 0 && p <= |Frame(n)|
    ensures var r := FeedAll(Start, Frames(sizes) + Frame(n)[..p]);
            && r.parsed == (if p == |Frame(n)| then sizes + [n] else sizes)
            && (r.phase == Boundary <==> p == 0 || p == |Frame(n)|)
  {
    hide Header, Frame, FeedAll;
    FramesParse(sizes);
    FeedAllAppends(Start, Frames(sizes), Frame(n)[..p]);
    FramePartParses(sizes, n, p);
  }
}

/**
 Bandwidth as a step function of time, and how long a send through it takes
 (internal/nettrace/nettrace.go). Times, bytes and rates are reals.

 Delivered is the reference: the integral of the step function, one clipped
 rectangle per segment. Every fact about SendTime that the loaders need follows
 from one theorem, that SendTime is the inverse of that integral.
 */
module NetTrace {
  import opened Results

  datatype Row = Row(bytes: real, seconds: real)

  datatype TraceError = NoRows | BadRow(index: nat)

  /** Segment i runs from ends[i-1] to ends[i] at rates[i] bytes per second. */
  datatype Trace = Trace(ends: seq<real>, rates: seq<real>) {
    ghost predicate Valid() {
      && 0 < |ends| == |rates|
      && (forall i :: 0 <= i < |rates| ==> rates[i] > 0.0)
      && (forall i, j :: 0 <= i < j < |ends| ==> ends[i] < ends[j])
      && ends[0] > 0.0
    }
  }

  // ---------------------------------------------------------------------------
  // One rate: bytes moved in a time, and the time some bytes take
  // ---------------------------------------------------------------------------

  function Moved(rate: real, seconds: real): real {
    rate * seconds
  }

  function TimeFor(rate: real, bytes: real): real
    requires rate > 0.0
  {
    bytes / rate
  }

  lemma MovedSplits(rate: real, x: real, y: real)
    ensures Moved(rate, x) + Moved(rate, y) == Moved(rate, x + y)
  {
  }

  lemma MovedSign(rate: real, x: real)
    requires rate > 0.0
    ensures Moved(rate, 0.0) == 0.0
    ensures x >= 0.0 ==> Moved(rate, x) >= 0.0
    ensures x > 0.0 ==> Moved(rate, x) > 0.0
  {
  }

  lemma TimeForInverts(rate: real, bytes: real)
    requires rate > 0.0 && bytes >= 0.0
    ensures TimeFor(rate, bytes) >= 0.0
    ensures Moved(rate, TimeFor(rate, bytes)) == bytes
  {
  }

  lemma TimeForFits(rate: real, bytes: real, seconds: real)
    requires rate > 0.0 && bytes <= Moved(rate, seconds)
    ensures TimeFor(rate, bytes) <= seconds
  {
  }

  // ---------------------------------------------------------------------------
  // The reference: bytes the step function delivers between two times
  // ---------------------------------------------------------------------------

  /** The part of segment i's time span that lies before x. Segment 0 has no start and the last has no end. */
  ghost function Clip(t: Trace, i: nat, x: real): real
    requires t.Valid() && i < |t.ends|
  {
    if i > 0 && x < t.ends[i - 1] then t.ends[i - 1]
    else if i < |t.ends| - 1 && x > t.ends[i] then t.ends[i]
    else x
  }

  ghost function DeliveredFrom(t: Trace, i: nat, a: real, b: real): real
    requires t.Valid() && i <= |t.ends|
    decreases |t.ends| - i
  {
    if i == |t.ends| then 0.0
    else Moved(t.rates[i], Clip(t, i, b) - Clip(t, i, a)) + DeliveredFrom(t, i + 1, a, b)
  }

  /** Bytes the network delivers from time a to time b. */
  ghost function Delivered(t: Trace, a: real, b: real): real
    requires t.Valid()
  {
    DeliveredFrom(t, 0, a, b)
  }

  lemma {:induction false} DeliveredFromSplits(t: Trace, i: nat, a: real, b: real, c: real)
    requires t.Valid() && i <= |t.ends|
    ensures DeliveredFrom(t, i, a, b) + DeliveredFrom(t, i, b, c) == DeliveredFrom(t, i, a, c)
    decreases |t.ends| - i
  {
    hide Moved;
    if i < |t.ends| {
      DeliveredFromSplits(t, i + 1, a, b, c);
      MovedSplits(t.rates[i], Clip(t, i, b) - Clip(t, i, a), Clip(t, i, c) - Clip(t, i, b));
    }
  }

  lemma {:induction false} DeliveredFromMonotone(t: Trace, i: nat, a: real, b: real)
    requires t.Valid() && i <= |t.ends| && a <= b
    ensures DeliveredFrom(t, i, a, b) >= 0.0
    decreases |t.ends| - i
  {
    hide Moved;
    if i < |t.ends| {
      DeliveredFromMonotone(t, i + 1, a, b);
      MovedSign(t.rates[i], Clip(t, i, b) - Clip(t, i, a));
    }
  }

  /** Time that passes always moves bytes: the integral is strictly increasing. */
  lemma {:induction false} DeliveredFromStrict(t: Trace, i: nat, a: real, b: real)
    requires t.Valid() && i < |t.ends| && a < b
    requires i > 0 ==> t.ends[i - 1] <= a
    ensures DeliveredFrom(t, i, a, b) > 0.0
    decreases |t.ends| - i
  {
    hide Moved;
    MovedSign(t.rates[i], Clip(t, i, b) - Clip(t, i, a));
    if i < |t.ends| - 1 && t.ends[i] <= a {
      DeliveredFromStrict(t, i + 1, a, b);
    } else {
      DeliveredFromMonotone(t, i + 1, a, b);
    }
  }

  /** Segments that end before both times, and segments that start after both, deliver nothing between them. */
  lemma {:induction false} SegmentsPassed(t: Trace, i: nat, j: nat, a: real, b: real)
    requires t.Valid() && i <= j < |t.ends|
    requires j > 0 ==> t.ends[j - 1] <= a && t.ends[j - 1] <= b
    ensures DeliveredFrom(t, i, a, b) == DeliveredFrom(t, j, a, b)
    decreases j - i
  {
    hide Moved;
    if i < j {
      SegmentsPassed(t, i + 1, j, a, b);
      MovedSign(t.rates[i], 0.0);
      assert t.ends[i] <= t.ends[j - 1];
      assert Clip(t, i, a) == Clip(t, i, b);
    }
  }

  lemma {:induction false} SegmentsNotReached(t: Trace, i: nat, a: real, b: real)
    requires t.Valid() && 0 < i <= |t.ends|
    requires a <= t.ends[i - 1] && b <= t.ends[i - 1]
    ensures DeliveredFrom(t, i, a, b) == 0.0
    decreases |t.ends| - i
  {
    hide Moved;
    if i < |t.ends| {
      SegmentsNotReached(t, i + 1, a, b);
      MovedSign(t.rates[i], 0.0);
      assert Clip(t, i, a) == Clip(t, i, b);
    }
  }

  lemma DeliveredSplits(t: Trace, a: real, b: real, c: real)
    requires t.Valid()
    ensures Delivered(t, a, b) + Delivered(t, b, c) == Delivered(t, a, c)
  {
    DeliveredFromSplits(t, 0, a, b, c);
  }

  /** Delivered orders finish times exactly as it orders the bytes sent by then. */
  lemma DeliveredOrders(t: Trace, a: real, b: real, c: real)
    requires t.Valid()
    ensures b < c <==> Delivered(t, a, b) < Delivered(t, a, c)
  {
    DeliveredSplits(t, a, b, c);
    DeliveredSplits(t, a, c, b);
    DeliveredSplits(t, b, c, b);
    DeliveredSplits(t, b, b, b);
    if b < c {
      DeliveredFromStrict(t, 0, b, c);
    } else {
      DeliveredFromMonotone(t, 0, c, b);
    }
  }

  // ---------------------------------------------------------------------------
  // Building and reading a trace
  // ---------------------------------------------------------------------------

  predicate GoodRow(r: Row) {
    r.seconds > 0.0 && r.bytes > 0.0
  }

  /** When row i starts: rows were sent back to back from time 0. */
  function Start(t: Trace, i: nat): real
    requires i <= |t.ends|
  {
    if i == 0 then 0.0 else t.ends[i - 1]
  }

  /** Row i starts when the one before it ends, lasts its seconds, and keeps its own average rate. */
  ghost predicate ReplaysRow(t: Trace, rows: seq<Row>, i: nat)
    requires |t.ends| == |t.rates| == |rows| && i < |rows|
  {
    && GoodRow(rows[i])
    && t.ends[i] == Start(t, i) + rows[i].seconds
    && Moved(t.rates[i], rows[i].seconds) == rows[i].bytes
  }

  ghost predicate Replays(t: Trace, rows: seq<Row>) {
    && t.Valid()
    && |t.ends| == |rows|
    && forall i :: 0 <= i < |rows| ==> ReplaysRow(t, rows, i)
  }

  method FromRows(rows: seq<Row>) returns (r: Result<Trace, TraceError>)
    ensures r.Ok? <==> rows != [] && forall i :: 0 <= i < |rows| ==> GoodRow(rows[i])
    ensures r.Ok? ==> Replays(r.value, rows)
    ensures r == Err(NoRows) <==> rows == []
    ensures forall k: nat {:trigger BadRow(k)} :: r == Err(BadRow(k)) ==>
      k < |rows| && !GoodRow(rows[k]) && forall i :: 0 <= i < k ==> GoodRow(rows[i])
  {
    hide Moved, Replays;
    if |rows| == 0 {
      return Err(NoRows);
    }
    var ends := new real[|rows|];
    var rates := new real[|rows|];
    var end := 0.0;
    assert ends[..0] == [] && rates[..0] == [] && rows[..0] == [];
    for i := 0 to |rows|
      invariant forall k :: 0 <= k < i ==> GoodRow(rows[k])
      invariant Built(Trace(ends[..i], rates[..i]), rows[..i])
      invariant end == if i == 0 then 0.0 else ends[i - 1]
    {
      if !(rows[i].seconds > 0.0) || !(rows[i].bytes > 0.0) {
        return Err(BadRow(i));
      }
      ghost var before := Trace(ends[..i], rates[..i]);
      end := end + rows[i].seconds;
      ends[i] := end;
      rates[i] := rows[i].bytes / rows[i].seconds;
      BuiltOneMore(before, rows[..i], rows[i], end, rates[i]);
      assert ends[..i + 1] == before.ends + [end] && rates[..i + 1] == before.rates + [rates[i]];
      assert rows[..i + 1] == rows[..i] + [rows[i]];
    }
    assert ends[..|rows|] == ends[..] && rates[..|rows|] == rates[..] && rows[..|rows|] == rows;
    return Ok(Trace(ends[..], rates[..]));
  }

  /** The segments built so far replay the rows read so far. */
  ghost predicate Built(t: Trace, rows: seq<Row>) {
    if rows == [] then t == Trace([], []) else Replays(t, rows)
  }

  lemma BuiltOneMore(t: Trace, rows: seq<Row>, r: Row, end: real, rate: real)
    requires Built(t, rows) && GoodRow(r)
    requires end == (if rows == [] then 0.0 else Duration(t)) + r.seconds && rate == r.bytes / r.seconds
    ensures Built(Trace(t.ends + [end], t.rates + [rate]), rows + [r])
  {
    AverageRate(r.bytes, r.seconds);
    hide Moved;
    var t' := Trace(t.ends + [end], t.rates + [rate]);
    forall k | 0 <= k < |rows + [r]|
      ensures ReplaysRow(t', rows + [r], k)
    {
      if k < |rows| {
        assert ReplaysRow(t, rows, k);
      }
    }
  }

  lemma AverageRate(bytes: real, seconds: real)
    requires bytes > 0.0 && seconds > 0.0
    ensures bytes / seconds > 0.0 && Moved(bytes / seconds, seconds) == bytes
  {
  }

  function Duration(t: Trace): real
    requires |t.ends| > 0
  {
    t.ends[|t.ends| - 1]
  }

  /** The first segment from i on that ends after `at`, or the last one. */
  function SegmentFrom(t: Trace, i: nat, at: real): (s: nat)
    requires i < |t.ends|
    ensures i <= s < |t.ends|
    ensures forall k :: i <= k < s ==> t.ends[k] <= at
    ensures s < |t.ends| - 1 ==> t.ends[s] > at
    decreases |t.ends| - i
  {
    if i == |t.ends| - 1 || t.ends[i] > at then i else SegmentFrom(t, i + 1, at)
  }

  function Segment(t: Trace, at: real): nat
    requires |t.ends| > 0
  {
    SegmentFrom(t, 0, at)
  }

  lemma {:induction false} SegmentFromUnique(t: Trace, i: nat, at: real, s: nat)
    requires i <= s < |t.ends|
    requires forall k :: i <= k < s ==> t.ends[k] <= at
    requires s < |t.ends| - 1 ==> t.ends[s] > at
    ensures SegmentFrom(t, i, at) == s
    decreases s - i
  {
    if i < s {
      SegmentFromUnique(t, i + 1, at, s);
    }
  }

  /** The binary search of sort.Search, capped at the last segment. */
  method FindSegment(t: Trace, at: real) returns (s: nat)
    requires t.Valid()
    ensures s == Segment(t, at) < |t.ends|
    ensures forall k :: 0 <= k < s ==> t.ends[k] <= at
    ensures s < |t.ends| - 1 ==> t.ends[s] > at
  {
    var i, j := 0, |t.ends|;
    while i < j
      invariant 0 <= i <= j <= |t.ends|
      invariant forall k :: 0 <= k < i ==> t.ends[k] <= at
      invariant forall k :: j <= k < |t.ends| ==> t.ends[k] > at
    {
      var h := (i + j) / 2;
      if !(t.ends[h] > at) {
        i := h + 1;
      } else {
        j := h;
      }
    }
    s := if i < |t.ends| - 1 then i else |t.ends| - 1;
    SegmentFromUnique(t, 0, at, s);
  }

  method RateAt(t: Trace, at: real) returns (rate: real)
    requires t.Valid()
    ensures rate == t.rates[Segment(t, at)]
    ensures rate > 0.0
  {
    var s := FindSegment(t, at);
    rate := t.rates[s];
  }

  /** RateAt is the slope of the delivered bytes until the segment that holds `at` ends. */
  lemma RateIsSlope(t: Trace, at: real, b: real)
    requires t.Valid() && at <= b
    requires Segment(t, at) < |t.ends| - 1 ==> b <= t.ends[Segment(t, at)]
    ensures Delivered(t, at, b) == Moved(t.rates[Segment(t, at)], b - at)
  {
    var s := Segment(t, at);
    SegmentsPassed(t, 0, s, at, b);
    if s < |t.ends| - 1 {
      SegmentsNotReached(t, s + 1, at, b);
    }
  }

  // ---------------------------------------------------------------------------
  // SendTime
  // ---------------------------------------------------------------------------

  /** When `bytes` sent from `now` inside segment i have all been delivered. */
  function FinishFrom(t: Trace, i: nat, now: real, bytes: real): real
    requires |t.ends| == |t.rates| && i < |t.ends|
    requires forall k :: 0 <= k < |t.rates| ==> t.rates[k] > 0.0
    decreases |t.ends| - i
  {
    if i == |t.ends| - 1 then now + TimeFor(t.rates[i], bytes)
    else
      var fits := Moved(t.rates[i], t.ends[i] - now);
      if bytes <= fits then now + TimeFor(t.rates[i], bytes)
      else FinishFrom(t, i + 1, t.ends[i], bytes - fits)
  }

  function SendTime(t: Trace, at: real, bytes: real): real
    requires t.Valid()
  {
    FinishFrom(t, Segment(t, at), at, bytes) - at
  }

  /** The walk over the segments; it ends because each turn moves to the next one. */
  method Send(t: Trace, at: real, bytes: real) returns (took: real)
    requires t.Valid()
    ensures took == SendTime(t, at, bytes)
    ensures bytes >= 0.0 ==> took >= 0.0 && Delivered(t, at, at + took) == bytes
  {
    hide Moved, TimeFor;
    var now, left := at, bytes;
    var i := FindSegment(t, at);
    if bytes >= 0.0 {
      SendTimeDelivers(t, at, bytes);
    }
    while i != |t.ends| - 1
      invariant i < |t.ends|
      invariant FinishFrom(t, i, now, left) == FinishFrom(t, Segment(t, at), at, bytes)
      decreases |t.ends| - i
    {
      var fits := Moved(t.rates[i], t.ends[i] - now);
      if left <= fits {
        return now + TimeFor(t.rates[i], left) - at;
      }
      left := left - fits;
      now := t.ends[i];
      i := i + 1;
    }
    return now + TimeFor(t.rates[i], left) - at;
  }

  lemma {:induction false} FinishDelivers(t: Trace, i: nat, now: real, bytes: real)
    requires t.Valid() && i < |t.ends| && bytes >= 0.0
    requires i > 0 ==> t.ends[i - 1] <= now
    requires i < |t.ends| - 1 ==> now <= t.ends[i]
    ensures FinishFrom(t, i, now, bytes) >= now
    ensures DeliveredFrom(t, i, now, FinishFrom(t, i, now, bytes)) == bytes
    decreases |t.ends| - i
  {
    hide Moved, TimeFor;
    var rate := t.rates[i];
    var f := FinishFrom(t, i, now, bytes);
    var last := i == |t.ends| - 1;
    if last || bytes <= Moved(rate, t.ends[i] - now) {
      TimeForInverts(rate, bytes);
      if !last {
        TimeForFits(rate, bytes, t.ends[i] - now);
        SegmentsNotReached(t, i + 1, now, f);
      }
      assert Clip(t, i, f) == f && Clip(t, i, now) == now;
    } else {
      FinishDelivers(t, i + 1, t.ends[i], bytes - Moved(rate, t.ends[i] - now));
      DeliveredFromSplits(t, i + 1, now, t.ends[i], f);
      SegmentsNotReached(t, i + 1, now, t.ends[i]);
    }
  }

  /** SendTime is what its name says: exactly `bytes` are delivered while it runs. */
  lemma SendTimeDelivers(t: Trace, at: real, bytes: real)
    requires t.Valid() && bytes >= 0.0
    ensures SendTime(t, at, bytes) >= 0.0
    ensures Delivered(t, at, at + SendTime(t, at, bytes)) == bytes
  {
    var s := Segment(t, at);
    FinishDelivers(t, s, at, bytes);
    SegmentsPassed(t, 0, s, at, at + SendTime(t, at, bytes));
  }

  /** SendTime inverts Delivered: it is the only time after which exactly that many bytes have arrived. */
  lemma SendTimeIsInverse(t: Trace, at: real, finish: real)
    requires t.Valid() && at <= finish
    ensures Delivered(t, at, finish) >= 0.0
    ensures SendTime(t, at, Delivered(t, at, finish)) == finish - at
  {
    DeliveredFromMonotone(t, 0, at, finish);
    var bytes := Delivered(t, at, finish);
    var f := at + SendTime(t, at, bytes);
    SendTimeDelivers(t, at, bytes);
    DeliveredOrders(t, at, f, finish);
    DeliveredOrders(t, at, finish, f);
  }

  /** Sending a and then b back to back takes as long as sending a + b at once. */
  lemma SendTimeAdds(t: Trace, at: real, a: real, b: real)
    requires t.Valid() && a >= 0.0 && b >= 0.0
    ensures SendTime(t, at, a + b) == SendTime(t, at, a) + SendTime(t, at + SendTime(t, at, a), b)
  {
    var mid := at + SendTime(t, at, a);
    var end := mid + SendTime(t, mid, b);
    SendTimeDelivers(t, at, a);
    SendTimeDelivers(t, mid, b);
    DeliveredSplits(t, at, mid, end);
    SendTimeIsInverse(t, at, end);
  }

  /** Starting later never finishes earlier. */
  lemma SendTimeNeverOvertakes(t: Trace, at1: real, at2: real, bytes: real)
    requires t.Valid() && at1 <= at2 && bytes >= 0.0
    ensures at1 + SendTime(t, at1, bytes) <= at2 + SendTime(t, at2, bytes)
  {
    var f1, f2 := at1 + SendTime(t, at1, bytes), at2 + SendTime(t, at2, bytes);
    SendTimeDelivers(t, at1, bytes);
    SendTimeDelivers(t, at2, bytes);
    DeliveredSplits(t, at1, at2, f2);
    DeliveredFromMonotone(t, 0, at1, at2);
    DeliveredOrders(t, at1, f2, f1);
  }

  /** Starting strictly later finishes strictly later. */
  lemma SendTimeKeepsOrder(t: Trace, at1: real, at2: real, bytes: real)
    requires t.Valid() && at1 < at2 && bytes >= 0.0
    ensures at1 + SendTime(t, at1, bytes) < at2 + SendTime(t, at2, bytes)
  {
    var f1, f2 := at1 + SendTime(t, at1, bytes), at2 + SendTime(t, at2, bytes);
    SendTimeDelivers(t, at1, bytes);
    SendTimeDelivers(t, at2, bytes);
    DeliveredSplits(t, at1, at2, f2);
    DeliveredFromStrict(t, 0, at1, at2);
    DeliveredOrders(t, at1, f1, f2);
  }

  lemma SendTimeGrows(t: Trace, at: real, a: real, b: real)
    requires t.Valid() && 0.0 <= a <= b
    ensures SendTime(t, at, a) <= SendTime(t, at, b)
  {
    SendTimeAdds(t, at, a, b - a);
    SendTimeDelivers(t, at + SendTime(t, at, a), b - a);
  }

  // ---------------------------------------------------------------------------
  // A trace built from rows replays them
  // ---------------------------------------------------------------------------

  function TotalBytes(rows: seq<Row>, n: nat): real
    requires n <= |rows|
  {
    if n == 0 then 0.0 else TotalBytes(rows, n - 1) + rows[n - 1].bytes
  }

  /** Sending row i's bytes from the moment it started takes exactly its measured seconds. */
  lemma RowReplays(t: Trace, rows: seq<Row>, i: nat)
    requires Replays(t, rows) && i < |rows|
    ensures Delivered(t, Start(t, i), t.ends[i]) == rows[i].bytes
    ensures SendTime(t, Start(t, i), rows[i].bytes) == rows[i].seconds
  {
    hide Moved, TimeFor;
    var a, b := Start(t, i), t.ends[i];
    assert ReplaysRow(t, rows, i);
    SegmentsPassed(t, 0, i, a, b);
    SegmentsNotReached(t, i + 1, a, b);
    assert Clip(t, i, a) == a && Clip(t, i, b) == b;
    SendTimeIsInverse(t, a, b);
  }

  lemma {:induction false} RowsReplay(t: Trace, rows: seq<Row>, n: nat)
    requires Replays(t, rows) && n <= |rows|
    ensures Delivered(t, 0.0, Start(t, n)) == TotalBytes(rows, n)
  {
    if n == 0 {
      DeliveredSplits(t, 0.0, 0.0, 0.0);
    } else {
      RowsReplay(t, rows, n - 1);
      RowReplays(t, rows, n - 1);
      DeliveredSplits(t, 0.0, Start(t, n - 1), Start(t, n));
    }
  }

  /** All the recorded bytes, sent from time 0, take the recorded duration. */
  lemma {:induction false} WholeRunReplays(t: Trace, rows: seq<Row>)
    requires Replays(t, rows)
    ensures SendTime(t, 0.0, TotalBytes(rows, |rows|)) == Duration(t)
  {
    RowsReplay(t, rows, |rows|);
    assert Duration(t) >= t.ends[0];
    SendTimeIsInverse(t, 0.0, Duration(t));
  }
}

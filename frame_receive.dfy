/**
 * How the detection workers read frames off their socket to the webcam
 * server. A connection is modelled by the sequence of chunks successive
 * `recv(4096)` calls return; every read past the end returns `b''`, which is
 * how Python reports that the peer closed the connection.
 *
 * Two readers exist in the source:
 *  - `receive_frame` of the CVS worker starts every call with an empty buffer
 *    and throws away whatever it read past the end of the frame;
 *  - the posture, stress and hydration workers keep one buffer `data` across
 *    frames, so bytes after a frame stay for the next one.
 */
module FrameReceive {
  import opened Common
  import opened FrameWire

  /** What the `i`-th `recv` returns. */
  function Recv(packets: seq<Bytes>, i: nat): Bytes
  {
    if i < |packets| then packets[i] else []
  }

  function Concat(chunks: seq<Bytes>): Bytes
  {
    if chunks == [] then [] else chunks[0] + Concat(chunks[1..])
  }

  /** Everything the connection delivers from read `i` on. */
  function Remaining(packets: seq<Bytes>, i: nat): Bytes
  {
    if i < |packets| then Concat(packets[i..]) else []
  }

  lemma RemainingStep(packets: seq<Bytes>, i: nat)
    requires i < |packets|
    ensures Remaining(packets, i) == packets[i] + Remaining(packets, i + 1)
  {
    assert packets[i..][1..] == packets[i + 1..];
  }

  /** No read before the end of the connection comes back empty. */
  predicate NoEmptyReads(packets: seq<Bytes>, i: nat)
  {
    forall k :: i <= k < |packets| ==> packets[k] != []
  }

  // ---------------------------------------------------------------------------
  // receive_frame of the CVS worker, as written
  // ---------------------------------------------------------------------------

  /** `while len(data) < need: packet = recv(); if not packet: return None; data += packet`. */
  function FillOrGiveUp(packets: seq<Bytes>, i: nat, data: Bytes, need: nat): (r: (Option<Bytes>, nat))
    ensures r.0.Some? ==> |r.0.value| >= need && data <= r.0.value
    ensures r.1 >= i
    decreases |packets| - i
  {
    if |data| >= need then (Some(data), i)
    else if Recv(packets, i) == [] then (None, i + 1)
    else FillOrGiveUp(packets, i + 1, data + packets[i], need)
  }

  /**
   * One call of `receive_frame` starting at read `pos`: the frame payload (or
   * `None` once the peer closed) and the index of the next unread chunk. Bytes
   * of the last chunk read that lie past the frame are dropped.
   */
  function ReceiveFrameSpec(packets: seq<Bytes>, pos: nat): (r: (Option<Bytes>, nat))
    ensures r.1 >= pos
  {
    var (header, i) := FillOrGiveUp(packets, pos, [], PrefixSize);
    if header.None? then (None, i)
    else
      var n := UnpackQ(Native, header.value[..PrefixSize]);
      var (body, j) := FillOrGiveUp(packets, i, header.value[PrefixSize..], n);
      if body.None? then (None, j) else (Some(body.value[..n]), j)
  }

  method ReceiveFrame(packets: seq<Bytes>, pos: nat) returns (frame: Option<Bytes>, next: nat)
    ensures (frame, next) == ReceiveFrameSpec(packets, pos)
  {
    var data: Bytes := [];
    var i := pos;
    while |data| < PrefixSize
      invariant i >= pos
      invariant FillOrGiveUp(packets, pos, [], PrefixSize) == FillOrGiveUp(packets, i, data, PrefixSize)
      decreases |packets| - i
    {
      var packet := Recv(packets, i);
      if packet == [] {
        return None, i + 1;
      }
      data := data + packet;
      i := i + 1;
    }
    var n := UnpackQ(Native, data[..PrefixSize]);
    ghost var header := data;
    ghost var start := i;
    data := data[PrefixSize..];
    while |data| < n
      invariant i >= start
      invariant FillOrGiveUp(packets, start, header[PrefixSize..], n) == FillOrGiveUp(packets, i, data, n)
      decreases |packets| - i
    {
      var packet := Recv(packets, i);
      if packet == [] {
        return None, i + 1;
      }
      data := data + packet;
      i := i + 1;
    }
    return Some(data[..n]), i;
  }

  // ---------------------------------------------------------------------------
  // The buffered reader of the posture, stress and hydration workers
  // ---------------------------------------------------------------------------

  datatype Fill =
    | Filled(data: Bytes, next: nat)
    | PeerClosed   // the reading loop gave up on an empty read
    | Spinning     // every further read is empty and the loop never ends

  /**
   * The length-prefix loop. With `retryEmpty` (hydration) an empty read is
   * retried; otherwise (posture, stress) it ends the loop.
   */
  function FillPrefix(packets: seq<Bytes>, i: nat, data: Bytes, retryEmpty: bool): (r: Fill)
    ensures r.Filled? ==> |r.data| >= PrefixSize && r.next >= i
    ensures r.Filled? && r.next == i ==> r.data == data
    ensures r.Filled? && i <= |packets| ==> r.next <= |packets|
    decreases |packets| - i
  {
    if |data| >= PrefixSize then Filled(data, i)
    else if i >= |packets| then (if retryEmpty then Spinning else PeerClosed)
    else if packets[i] == [] then (if retryEmpty then FillPrefix(packets, i + 1, data, retryEmpty) else PeerClosed)
    else FillPrefix(packets, i + 1, data + packets[i], retryEmpty)
  }

  /** The payload loop `while len(data) < msg_size: data += recv()`, which never gives up. */
  function FillPayload(packets: seq<Bytes>, i: nat, data: Bytes, need: nat): (r: Fill)
    ensures !r.PeerClosed?
    ensures r.Filled? ==> |r.data| >= need && r.next >= i
    ensures r.Filled? && r.next == i ==> r.data == data
    ensures r.Filled? && i <= |packets| ==> r.next <= |packets|
    decreases |packets| - i
  {
    if |data| >= need then Filled(data, i)
    else if i >= |packets| then Spinning
    else FillPayload(packets, i + 1, data + packets[i], need)
  }

  datatype Next =
    | Frame(payload: Bytes, leftover: Bytes, next: nat)
    | Closed    // the worker leaves its main loop
    | Stalled   // the worker waits forever for bytes that never come

  /** One frame off the buffered reader: the payload, the bytes kept for the next frame, the next read. */
  function NextFrameSpec(data: Bytes, packets: seq<Bytes>, i: nat, retryEmpty: bool): (r: Next)
    ensures r.Frame? ==> r.next >= i
    ensures r.Frame? && r.next == i ==> |r.leftover| < |data|
    ensures r.Frame? && i <= |packets| ==> r.next <= |packets|
  {
    match FillPrefix(packets, i, data, retryEmpty)
    case PeerClosed => Closed
    case Spinning => Stalled
    case Filled(d, j) =>
      var n := UnpackQ(Native, d[..PrefixSize]);
      match FillPayload(packets, j, d[PrefixSize..], n)
      case Filled(body, k) => Frame(body[..n], body[n..], k)
      case _ => Stalled
  }

  method NextFrame(data: Bytes, packets: seq<Bytes>, i: nat, retryEmpty: bool) returns (r: Next)
    ensures r == NextFrameSpec(data, packets, i, retryEmpty)
  {
    var buf := data;
    var k := i;
    while |buf| < PrefixSize
      invariant k >= i
      invariant FillPrefix(packets, i, data, retryEmpty) == FillPrefix(packets, k, buf, retryEmpty)
      decreases |packets| - k
    {
      if k >= |packets| {
        return if retryEmpty then Stalled else Closed;
      }
      var packet := packets[k];
      k := k + 1;
      if packet == [] {
        if !retryEmpty {
          return Closed;
        }
      } else {
        buf := buf + packet;
      }
    }
    var n := UnpackQ(Native, buf[..PrefixSize]);
    ghost var header := buf;
    ghost var start := k;
    buf := buf[PrefixSize..];
    while |buf| < n
      invariant k >= start
      invariant FillPayload(packets, start, header[PrefixSize..], n) == FillPayload(packets, k, buf, n)
      decreases |packets| - k
    {
      if k >= |packets| {
        return Stalled;
      }
      buf := buf + packets[k];
      k := k + 1;
    }
    return Frame(buf[..n], buf[n..], k);
  }

  /** The first `count` frames the buffered reader produces, stopping early if the connection ends. */
  function ReceiveFrames(data: Bytes, packets: seq<Bytes>, i: nat, retryEmpty: bool, count: nat): seq<Bytes>
    decreases count
  {
    if count == 0 then []
    else match NextFrameSpec(data, packets, i, retryEmpty)
      case Frame(payload, rest, j) => [payload] + ReceiveFrames(rest, packets, j, retryEmpty, count - 1)
      case _ => []
  }

  lemma {:induction false} FillPrefixDelivers(packets: seq<Bytes>, i: nat, data: Bytes, retryEmpty: bool)
    requires NoEmptyReads(packets, i)
    requires |data + Remaining(packets, i)| >= PrefixSize
    ensures FillPrefix(packets, i, data, retryEmpty).Filled?
    ensures var r := FillPrefix(packets, i, data, retryEmpty);
      r.data + Remaining(packets, r.next) == data + Remaining(packets, i)
    decreases |packets| - i
  {
    if |data| < PrefixSize {
      FillPrefixStep(packets, i, data, retryEmpty);
      FillPrefixDelivers(packets, i + 1, data + packets[i], retryEmpty);
    }
  }

  /** Short of a prefix with bytes still to come, the loop reads one more non-empty chunk. */
  lemma FillPrefixStep(packets: seq<Bytes>, i: nat, data: Bytes, retryEmpty: bool)
    requires NoEmptyReads(packets, i)
    requires |data| < PrefixSize <= |data + Remaining(packets, i)|
    ensures i < |packets| && NoEmptyReads(packets, i + 1)
    ensures FillPrefix(packets, i, data, retryEmpty) == FillPrefix(packets, i + 1, data + packets[i], retryEmpty)
    ensures (data + packets[i]) + Remaining(packets, i + 1) == data + Remaining(packets, i)
  {
    assert i < |packets|;
    Feed(packets, i, data);
  }

  /** Reading a chunk moves it from what the connection still delivers into the buffer. */
  lemma Feed(packets: seq<Bytes>, i: nat, data: Bytes)
    requires i < |packets|
    ensures (data + packets[i]) + Remaining(packets, i + 1) == data + Remaining(packets, i)
  {
    RemainingStep(packets, i);
    assert (data + packets[i]) + Remaining(packets, i + 1) == data + (packets[i] + Remaining(packets, i + 1));
  }

  lemma {:induction false} FillPayloadDelivers(packets: seq<Bytes>, i: nat, data: Bytes, need: nat)
    requires |data + Remaining(packets, i)| >= need
    ensures FillPayload(packets, i, data, need).Filled?
    ensures var r := FillPayload(packets, i, data, need);
      r.data + Remaining(packets, r.next) == data + Remaining(packets, i)
    decreases |packets| - i
  {
    if |data| < need {
      assert i < |packets|;
      Feed(packets, i, data);
      FillPayloadDelivers(packets, i + 1, data + packets[i], need);
    }
  }

  /**
   * Whenever the buffered bytes followed by what the connection still delivers
   * begin with an encoded frame, the buffered reader returns that frame and
   * keeps exactly the bytes after it, however the stream was cut into chunks.
   */
  lemma NextFrameDelivers(payload: Bytes, tail: Bytes, data: Bytes, packets: seq<Bytes>, i: nat, retryEmpty: bool)
    requires |payload| < QLimit
    requires NoEmptyReads(packets, i)
    requires data + Remaining(packets, i) == EncodeMessage(Native, payload).value + tail
    ensures NextFrameSpec(data, packets, i, retryEmpty).Frame?
    ensures var r := NextFrameSpec(data, packets, i, retryEmpty);
      r.payload == payload && r.leftover + Remaining(packets, r.next) == tail
  {
    FillPrefixDelivers(packets, i, data, retryEmpty);
    var pre := FillPrefix(packets, i, data, retryEmpty);
    var d, j := pre.data, pre.next;
    HeaderOfFrame(payload, tail, d, Remaining(packets, j));
    var n := UnpackQ(Native, d[..PrefixSize]);
    FillPayloadDelivers(packets, j, d[PrefixSize..], n);
    var body := FillPayload(packets, j, d[PrefixSize..], n);
    BodyOfFrame(payload, tail, body.data, Remaining(packets, body.next));
  }

  /** Buffered bytes that begin an encoded frame carry its length in their first eight. */
  lemma HeaderOfFrame(payload: Bytes, tail: Bytes, d: Bytes, more: Bytes)
    requires |payload| < QLimit && |d| >= PrefixSize
    requires d + more == EncodeMessage(Native, payload).value + tail
    ensures UnpackQ(Native, d[..PrefixSize]) == |payload|
    ensures d[PrefixSize..] + more == payload + tail
  {
    var m := EncodeMessage(Native, payload).value;
    assert d[..PrefixSize] == m[..PrefixSize] by {
      assert (d + more)[..PrefixSize] == d[..PrefixSize];
      assert (m + tail)[..PrefixSize] == m[..PrefixSize];
    }
    PackQRoundTrip(Native, |payload|);
    assert m[..PrefixSize] == PackQ(Native, |payload|).value;
    assert d[PrefixSize..] + more == payload + tail by {
      assert (d + more)[PrefixSize..] == (m + tail)[PrefixSize..];
      assert (d + more)[PrefixSize..] == d[PrefixSize..] + more;
      assert (m + tail)[PrefixSize..] == m[PrefixSize..] + tail;
    }
  }

  /** A buffer holding at least the payload's length splits into the payload and the rest. */
  lemma BodyOfFrame(payload: Bytes, tail: Bytes, b: Bytes, more: Bytes)
    requires |b| >= |payload| && b + more == payload + tail
    ensures b[..|payload|] == payload && b[|payload|..] + more == tail
  {
    var n := |payload|;
    assert b[..n] == payload by {
      assert (b + more)[..n] == b[..n];
      assert (payload + tail)[..n] == payload;
    }
    assert b[n..] + more == tail by {
      assert (b + more)[n..] == (payload + tail)[n..];
    }
  }

  /**
   * The buffered reader recovers every frame of a stream of encoded frames, in
   * order, whatever the chunking, including several frames arriving in one chunk.
   */
  lemma {:induction false} ReceiveFramesInOrder(payloads: seq<Bytes>, tail: Bytes, data: Bytes, packets: seq<Bytes>, i: nat, retryEmpty: bool)
    requires AllSendable(payloads)
    requires NoEmptyReads(packets, i)
    requires data + Remaining(packets, i) == EncodeAll(Native, payloads) + tail
    ensures ReceiveFrames(data, packets, i, retryEmpty, |payloads|) == payloads
    decreases |payloads|
  {
    if payloads != [] {
      FirstFrameDelivered(payloads, tail, data, packets, i, retryEmpty);
      var r := NextFrameSpec(data, packets, i, retryEmpty);
      ReceiveFramesInOrder(payloads[1..], tail, r.leftover, packets, r.next, retryEmpty);
      assert [payloads[0]] + payloads[1..] == payloads;
    }
  }

  /** The first of several encoded frames comes off the reader, leaving the others encoded. */
  lemma FirstFrameDelivered(payloads: seq<Bytes>, tail: Bytes, data: Bytes, packets: seq<Bytes>, i: nat, retryEmpty: bool)
    requires payloads != [] && AllSendable(payloads)
    requires NoEmptyReads(packets, i)
    requires data + Remaining(packets, i) == EncodeAll(Native, payloads) + tail
    ensures NextFrameSpec(data, packets, i, retryEmpty).Frame?
    ensures var r := NextFrameSpec(data, packets, i, retryEmpty);
      && r.payload == payloads[0] && AllSendable(payloads[1..]) && NoEmptyReads(packets, r.next)
      && r.leftover + Remaining(packets, r.next) == EncodeAll(Native, payloads[1..]) + tail
  {
    EncodeAllCons(Native, payloads);
    var rest := EncodeAll(Native, payloads[1..]) + tail;
    assert data + Remaining(packets, i) == EncodeMessage(Native, payloads[0]).value + rest;
    NextFrameDelivers(payloads[0], rest, data, packets, i, retryEmpty);
  }

  /**
   * The CVS reader, as written, loses the second of two frames the server's
   * writes put into one chunk: its first call returns the first frame and drops
   * the second frame's bytes, so the next call sees a closed connection.
   */
  lemma ReceiveFrameLosesCoalescedFrame()
    ensures var packets := [EncodeMessage(Native, [1]).value + EncodeMessage(Native, [2]).value];
      ReceiveFrameSpec(packets, 0) == (Some([1]), 1) && ReceiveFrameSpec(packets, 1).0 == None
  {
    var m1 := EncodeMessage(Native, [1]).value;
    var m2 := EncodeMessage(Native, [2]).value;
    var packets := [m1 + m2];
    PackQRoundTrip(Native, 1);
    assert |m1 + m2| == 18;
    assert Recv(packets, 0) == m1 + m2;
    assert [] + packets[0] == m1 + m2;
    assert FillOrGiveUp(packets, 1, m1 + m2, PrefixSize) == (Some(m1 + m2), 1);
    var (header, i) := FillOrGiveUp(packets, 0, [], PrefixSize);
    assert header == Some(m1 + m2) && i == 1;
    assert (m1 + m2)[..PrefixSize] == m1[..PrefixSize];
    var n := UnpackQ(Native, header.value[..PrefixSize]);
    assert n == 1;
    assert (m1 + m2)[PrefixSize..][..1] == [1];
  }

  /** The buffered reader gets both frames out of that same chunk. */
  lemma BufferedReaderKeepsCoalescedFrame()
    ensures var packets := [EncodeMessage(Native, [1]).value + EncodeMessage(Native, [2]).value];
      ReceiveFrames([], packets, 0, false, 2) == [[1], [2]]
  {
    var payloads: seq<Bytes> := [[1], [2]];
    var packets := [EncodeMessage(Native, [1]).value + EncodeMessage(Native, [2]).value];
    assert AllSendable(payloads);
    assert EncodeAll(Native, payloads[..1]) == EncodeMessage(Native, [1]).value by {
      assert payloads[..1][..0] == [];
    }
    assert EncodeAll(Native, payloads) == packets[0];
    assert Remaining(packets, 0) == packets[0] by {
      assert packets[0..] == packets;
      assert packets[1..] == [];
      assert Concat(packets) == packets[0] + Concat(packets[1..]);
    }
    assert [] + Remaining(packets, 0) == EncodeAll(Native, payloads) + [];
    ReceiveFramesInOrder(payloads, [], [], packets, 0, false);
  }
}

/**
 * The wire format shared by the webcam server and its clients: every frame is
 * sent as an 8-byte unsigned length, packed with `struct.pack("Q", n)` in the
 * machine's native byte order, followed by the pickled frame itself.
 */
module FrameWire {
  import opened Common

  /** `struct.calcsize("Q")`. */
  const PrefixSize: nat := 8

  /** The first length `struct.pack("Q", n)` refuses with `struct.error`. */
  const QLimit: nat := 0x1_0000_0000_0000_0000

  datatype ByteOrder = LittleEndian | BigEndian

  /** Sender and receivers run on the same machine, so both use its native order. */
  const Native: ByteOrder := LittleEndian

  function Pow256(k: nat): (r: nat)
    ensures r >= 1
  {
    if k == 0 then 1 else 256 * Pow256(k - 1)
  }

  /** The `k` low-order bytes of `n`, least significant first. */
  function LittleBytes(n: nat, k: nat): (b: Bytes)
    ensures |b| == k
  {
    if k == 0 then [] else [(n % 256) as byte] + LittleBytes(n / 256, k - 1)
  }

  function LittleValue(b: Bytes): nat
  {
    if b == [] then 0 else b[0] as nat + 256 * LittleValue(b[1..])
  }

  /** The `k` low-order bytes of `n`, most significant first. */
  function BigBytes(n: nat, k: nat): (b: Bytes)
    ensures |b| == k
  {
    if k == 0 then [] else BigBytes(n / 256, k - 1) + [(n % 256) as byte]
  }

  function BigValue(b: Bytes): nat
  {
    if b == [] then 0 else 256 * BigValue(b[..|b| - 1]) + b[|b| - 1] as nat
  }

  lemma {:induction false} LittleRoundTrip(n: nat, k: nat)
    requires n < Pow256(k)
    ensures LittleValue(LittleBytes(n, k)) == n
    decreases k
  {
    if k > 0 {
      var b := LittleBytes(n, k);
      assert b[1..] == LittleBytes(n / 256, k - 1);
      LittleRoundTrip(n / 256, k - 1);
    }
  }

  lemma {:induction false} BigRoundTrip(n: nat, k: nat)
    requires n < Pow256(k)
    ensures BigValue(BigBytes(n, k)) == n
    decreases k
  {
    if k > 0 {
      var b := BigBytes(n, k);
      assert b[..|b| - 1] == BigBytes(n / 256, k - 1);
      BigRoundTrip(n / 256, k - 1);
    }
  }

  lemma {:induction false} LittleValueBound(b: Bytes)
    ensures LittleValue(b) < Pow256(|b|)
  {
    if b != [] {
      LittleValueBound(b[1..]);
    }
  }

  lemma {:induction false} BigValueBound(b: Bytes)
    ensures BigValue(b) < Pow256(|b|)
  {
    if b != [] {
      BigValueBound(b[..|b| - 1]);
    }
  }

  lemma QLimitIsPow()
    ensures Pow256(PrefixSize) == QLimit
  {
    assert Pow256(8) == 256 * 256 * 256 * 256 * 256 * 256 * 256 * 256 by {
      assert Pow256(1) == 256;
      assert Pow256(2) == 256 * Pow256(1);
    }
  }

  /** `struct.pack("Q", n)`: `None` stands for the `struct.error` raised when `n` does not fit. */
  function PackQ(order: ByteOrder, n: nat): Option<Bytes>
  {
    if n >= QLimit then None
    else if order == LittleEndian then Some(LittleBytes(n, PrefixSize))
    else Some(BigBytes(n, PrefixSize))
  }

  /** `struct.unpack("Q", b)[0]` on exactly eight bytes. */
  function UnpackQ(order: ByteOrder, b: Bytes): (n: nat)
    requires |b| == PrefixSize
    ensures n < QLimit
  {
    QLimitIsPow();
    if order == LittleEndian then (LittleValueBound(b); LittleValue(b))
    else (BigValueBound(b); BigValue(b))
  }

  /** Packing fails exactly for lengths of 2^64 and above, and unpacking undoes packing. */
  lemma PackQRoundTrip(order: ByteOrder, n: nat)
    ensures PackQ(order, n).Some? <==> n < QLimit
    ensures PackQ(order, n).Some? ==>
      |PackQ(order, n).value| == PrefixSize && UnpackQ(order, PackQ(order, n).value) == n
  {
    if n < QLimit {
      QLimitIsPow();
      LittleRoundTrip(n, PrefixSize);
      BigRoundTrip(n, PrefixSize);
    }
  }

  /** What one frame puts on the wire: the length as eight bytes, then the payload. */
  function EncodeMessage(order: ByteOrder, payload: Bytes): (m: Option<Bytes>)
    ensures m.Some? <==> |payload| < QLimit
    ensures m.Some? ==> |m.value| == PrefixSize + |payload| && m.value[PrefixSize..] == payload
  {
    PackQRoundTrip(order, |payload|);
    match PackQ(order, |payload|)
    case None => None
    case Some(prefix) => Some(prefix + payload)
  }

  /**
   * Splits one whole frame off the front of a receive buffer: `None` while the
   * buffer holds less than a prefix or less than the announced payload.
   */
  function ExtractFrame(order: ByteOrder, buf: Bytes): Option<(Bytes, Bytes)>
  {
    if |buf| < PrefixSize then None
    else
      var n := UnpackQ(order, buf[..PrefixSize]);
      if |buf| - PrefixSize < n then None
      else Some((buf[PrefixSize..PrefixSize + n], buf[PrefixSize + n..]))
  }

  /** A receiver that has buffered an encoded frame gets back that frame and the bytes after it. */
  lemma ExtractEncoded(order: ByteOrder, payload: Bytes, rest: Bytes)
    requires |payload| < QLimit
    ensures ExtractFrame(order, EncodeMessage(order, payload).value + rest) == Some((payload, rest))
  {
    var m := EncodeMessage(order, payload).value;
    var buf := m + rest;
    PackQRoundTrip(order, |payload|);
    assert buf[..PrefixSize] == PackQ(order, |payload|).value;
    assert buf[PrefixSize..PrefixSize + |payload|] == payload;
    assert buf[PrefixSize + |payload|..] == rest;
  }

  predicate AllSendable(payloads: seq<Bytes>)
  {
    forall i :: 0 <= i < |payloads| ==> |payloads[i]| < QLimit
  }

  /** The bytes a connection receives when it is sent these frames in order. */
  function EncodeAll(order: ByteOrder, payloads: seq<Bytes>): Bytes
    requires AllSendable(payloads)
  {
    if payloads == [] then []
    else EncodeAll(order, payloads[..|payloads| - 1]) + EncodeMessage(order, payloads[|payloads| - 1]).value
  }

  lemma {:induction false} EncodeAllCons(order: ByteOrder, payloads: seq<Bytes>)
    requires payloads != [] && AllSendable(payloads)
    ensures AllSendable(payloads[1..])
    ensures EncodeAll(order, payloads) == EncodeMessage(order, payloads[0]).value + EncodeAll(order, payloads[1..])
    decreases |payloads|
  {
    SendableParts(payloads);
    if |payloads| > 1 {
      EncodeAllCons(order, payloads[..|payloads| - 1]);
      EncodeAllConsStep(order, payloads);
    } else {
      assert payloads[1..] == [];
      assert payloads[..0] == [];
    }
  }

  lemma SendableParts(payloads: seq<Bytes>)
    requires payloads != [] && AllSendable(payloads)
    ensures AllSendable(payloads[1..]) && AllSendable(payloads[..|payloads| - 1])
  {
    assert forall i :: 0 <= i < |payloads| - 1 ==> payloads[1..][i] == payloads[i + 1];
  }

  /** `EncodeAllCons` for a longer list, from the same fact about all but its last frame. */
  lemma EncodeAllConsStep(order: ByteOrder, payloads: seq<Bytes>)
    requires |payloads| > 1 && AllSendable(payloads)
    requires AllSendable(payloads[1..]) && AllSendable(payloads[..|payloads| - 1])
    requires var init := payloads[..|payloads| - 1];
      AllSendable(init[1..]) &&
      EncodeAll(order, init) == EncodeMessage(order, init[0]).value + EncodeAll(order, init[1..])
    ensures EncodeAll(order, payloads) == EncodeMessage(order, payloads[0]).value + EncodeAll(order, payloads[1..])
  {
    var init := payloads[..|payloads| - 1];
    var tail := payloads[1..];
    var last := payloads[|payloads| - 1];
    assert init[0] == payloads[0];
    assert init[1..] == tail[..|tail| - 1];
    assert tail[|tail| - 1] == last;
    var a, b, c := EncodeMessage(order, payloads[0]).value, EncodeAll(order, init[1..]), EncodeMessage(order, last).value;
    assert EncodeAll(order, payloads) == (a + b) + c;
    assert EncodeAll(order, tail) == b + c;
  }

  /** Decodes frames off the front of a buffer until no whole frame is left. */
  function DecodeAll(order: ByteOrder, buf: Bytes): seq<Bytes>
    decreases |buf|
  {
    match ExtractFrame(order, buf)
    case None => []
    case Some((payload, rest)) => [payload] + DecodeAll(order, rest)
  }

  lemma DecodeOne(order: ByteOrder, payload: Bytes, tail: Bytes)
    requires |payload| < QLimit
    ensures DecodeAll(order, EncodeMessage(order, payload).value + tail) == [payload] + DecodeAll(order, tail)
  {
    ExtractEncoded(order, payload, tail);
  }

  lemma {:induction false} DecodeAllPrepend(order: ByteOrder, payloads: seq<Bytes>, tail: Bytes)
    requires AllSendable(payloads)
    ensures DecodeAll(order, EncodeAll(order, payloads) + tail) == payloads + DecodeAll(order, tail)
    decreases |payloads|
  {
    if payloads == [] {
      assert EncodeAll(order, payloads) + tail == tail;
    } else {
      var last := payloads[|payloads| - 1];
      var init := payloads[..|payloads| - 1];
      var m := EncodeMessage(order, last).value;
      assert AllSendable(init);
      assert EncodeAll(order, payloads) == EncodeAll(order, init) + m;
      assert EncodeAll(order, payloads) + tail == EncodeAll(order, init) + (m + tail);
      var rest := DecodeAll(order, tail);
      calc {
        DecodeAll(order, EncodeAll(order, payloads) + tail);
        DecodeAll(order, EncodeAll(order, init) + (m + tail));
        { DecodeAllPrepend(order, init, m + tail); }
        init + DecodeAll(order, m + tail);
        { DecodeOne(order, last, tail); }
        init + ([last] + rest);
        { assert init + [last] == payloads; }
        payloads + rest;
      }
    }
  }

  /** A byte stream made of encoded frames decodes back to exactly those frames, in order. */
  lemma StreamRoundTrip(order: ByteOrder, payloads: seq<Bytes>)
    requires AllSendable(payloads)
    ensures DecodeAll(order, EncodeAll(order, payloads)) == payloads
  {
    DecodeAllPrepend(order, payloads, []);
    assert EncodeAll(order, payloads) + [] == EncodeAll(order, payloads);
    assert DecodeAll(order, []) == [];
  }
}

/**
 * The webcam server (`utils/webcam_server.py`): it accepts client sockets on
 * port 9999 and sends every captured frame, length-prefixed, to each of them;
 * a client whose send fails is dropped and closed.
 *
 * A client socket is an id. What `sendall` delivered to each client is kept as
 * its byte stream `sent[c]`, together with the frames that stream encodes.
 * Camera reads, key presses and send failures come in as event parameters.
 */
module WebcamServerModel {
  import opened Common
  import opened FrameWire

  type Conn = nat

  /** What one iteration of the streaming loop saw. */
  datatype CaptureEvent =
    | Captured(payload: Bytes, failing: set<Conn>, quitPressed: bool)   // `failing`: clients whose sendall raises
    | CaptureFailed                                                    // `cap.read()` returned no frame

  predicate Distinct(s: seq<Conn>)
  {
    forall i, j :: 0 <= i < j < |s| ==> s[i] != s[j]
  }

  function Elements(s: seq<Conn>): set<Conn>
  {
    set c | c in s
  }

  /** `s` without the elements of `gone`, in the original order. */
  function Without(s: seq<Conn>, gone: set<Conn>): (r: seq<Conn>)
    ensures forall c :: c in r <==> c in s && c !in gone
    ensures |r| <= |s|
  {
    if s == [] then [] else (if s[0] in gone then [] else [s[0]]) + Without(s[1..], gone)
  }

  /** The elements of `s` that are in `keep`, in order. */
  function Among(s: seq<Conn>, keep: set<Conn>): (r: seq<Conn>)
    ensures forall c :: c in r <==> c in s && c in keep
  {
    if s == [] then [] else Among(s[..|s| - 1], keep) + (if s[|s| - 1] in keep then [s[|s| - 1]] else [])
  }

  /** The ids `lo, lo + 1, ..., lo + n - 1`. */
  function Range(lo: nat, n: nat): (r: seq<Conn>)
    ensures |r| == n
    ensures forall i :: 0 <= i < n ==> r[i] == lo + i
  {
    if n == 0 then [] else Range(lo, n - 1) + [lo + n - 1]
  }

  /** How many connection attempts succeed before the first failing `accept()`. */
  function LeadingAccepts(accepts: seq<bool>): (n: nat)
    ensures n <= |accepts|
    ensures forall i :: 0 <= i < n ==> accepts[i]
    ensures n < |accepts| ==> !accepts[n]
  {
    if accepts == [] || !accepts[0] then 0 else 1 + LeadingAccepts(accepts[1..])
  }

  lemma {:induction false} WithoutStep(s: seq<Conn>, gone: set<Conn>, c: Conn)
    ensures Without(Without(s, gone), {c}) == Without(s, gone + {c})
  {
    if s != [] {
      WithoutStep(s[1..], gone, c);
      var head := if s[0] in gone then [] else [s[0]];
      assert Without(s, gone) == head + Without(s[1..], gone);
      if head != [] {
        assert Without(s, gone)[1..] == Without(s[1..], gone);
      } else {
        assert Without(s, gone) == Without(s[1..], gone);
      }
    }
  }

  /** `list.remove(c)` on a list without duplicates removes exactly `c`. */
  lemma {:induction false} RemoveDistinct(s: seq<Conn>, idx: nat)
    requires Distinct(s) && idx < |s|
    ensures s[..idx] + s[idx + 1..] == Without(s, {s[idx]})
    ensures Distinct(s[..idx] + s[idx + 1..])
  {
    RemoveOnly(s, idx);
    RemoveKeepsDistinct(s, idx);
  }

  lemma {:induction false} RemoveOnly(s: seq<Conn>, idx: nat)
    requires Distinct(s) && idx < |s|
    ensures s[..idx] + s[idx + 1..] == Without(s, {s[idx]})
  {
    if idx > 0 {
      assert Distinct(s[1..]) by {
        forall i, j | 0 <= i < j < |s[1..]| ensures s[1..][i] != s[1..][j] {
          assert s[1..][i] == s[i + 1] && s[1..][j] == s[j + 1];
        }
      }
      RemoveOnly(s[1..], idx - 1);
      assert s[0] != s[idx];
      assert s[..idx] + s[idx + 1..] == [s[0]] + (s[1..][..idx - 1] + s[1..][idx..]);
    } else {
      assert forall i :: 0 <= i < |s[1..]| ==> s[1..][i] == s[i + 1];
      WithoutNone(s[1..], s[0]);
    }
  }

  lemma RemoveKeepsDistinct(s: seq<Conn>, idx: nat)
    requires Distinct(s) && idx < |s|
    ensures Distinct(s[..idx] + s[idx + 1..])
  {
    var r := s[..idx] + s[idx + 1..];
    forall i, j | 0 <= i < j < |r| ensures r[i] != r[j] {
      var i' := if i < idx then i else i + 1;
      var j' := if j < idx then j else j + 1;
      assert r[i] == s[i'] && r[j] == s[j'];
    }
  }

  lemma {:induction false} WithoutNothing(s: seq<Conn>)
    ensures Without(s, {}) == s
  {
    if s != [] {
      WithoutNothing(s[1..]);
      assert [s[0]] + s[1..] == s;
    }
  }

  lemma {:induction false} WithoutNone(s: seq<Conn>, c: Conn)
    requires c !in s
    ensures Without(s, {c}) == s
  {
    if s != [] {
      WithoutNone(s[1..], c);
      assert [s[0]] + s[1..] == s;
    }
  }

  lemma AmongSnoc(s: seq<Conn>, c: Conn, keep: set<Conn>)
    ensures Among(s + [c], keep) == Among(s, keep) + (if c in keep then [c] else [])
  {
    assert (s + [c])[..|s|] == s;
  }

  lemma NotEarlier(s: seq<Conn>, i: nat)
    requires Distinct(s) && i < |s|
    ensures s[i] !in s[..i]
  {
    forall j | 0 <= j < i ensures s[..i][j] != s[i] {
      assert s[..i][j] == s[j];
    }
  }

  /** Each client's frames after the clients in `sent` were sent `payload`; failing sends deliver nothing. */
  function AfterSend(delivered: map<Conn, seq<Bytes>>, sent: seq<Conn>, failing: set<Conn>, payload: Bytes)
    : map<Conn, seq<Bytes>>
  {
    map c | c in delivered :: if c in sent && c !in failing then delivered[c] + [payload] else delivered[c]
  }

  lemma AfterSendStep(delivered: map<Conn, seq<Bytes>>, sent: seq<Conn>, c: Conn, failing: set<Conn>, payload: Bytes)
    requires c in delivered && c !in sent
    ensures AfterSend(delivered, sent + [c], failing, payload) ==
      var m := AfterSend(delivered, sent, failing, payload);
      if c in failing then m else m[c := m[c] + [payload]]
  {
  }

  /**
   * The sending loop of `_stream_webcam`: every client in the list is sent the
   * frame; those whose `sendall` raises are collected, in list order.
   */
  method SendToClients(conns: seq<Conn>, delivered: map<Conn, seq<Bytes>>, payload: Bytes, failing: set<Conn>)
    returns (out: map<Conn, seq<Bytes>>, disconnected: seq<Conn>)
    requires Distinct(conns) && forall c :: c in conns ==> c in delivered
    ensures disconnected == Among(conns, failing)
    ensures out.Keys == delivered.Keys
    ensures forall c :: c in out ==>
      out[c] == (if c in conns && c !in failing then delivered[c] + [payload] else delivered[c])
  {
    out := delivered;
    disconnected := [];
    assert out == AfterSend(delivered, [], failing, payload);
    for i := 0 to |conns|
      invariant disconnected == Among(conns[..i], failing)
      invariant out == AfterSend(delivered, conns[..i], failing, payload)
    {
      var c := conns[i];
      assert conns[..i + 1] == conns[..i] + [c];
      AmongSnoc(conns[..i], c, failing);
      NotEarlier(conns, i);
      AfterSendStep(delivered, conns[..i], c, failing, payload);
      if c in failing {
        disconnected := disconnected + [c];
      } else {
        out := out[c := out[c] + [payload]];
      }
    }
    assert conns[..|conns|] == conns;
  }

  /** The removal loop of `_stream_webcam`: each collected client still in the list is removed and closed. */
  method DropClients(conns: seq<Conn>, disconnected: seq<Conn>) returns (rest: seq<Conn>, closedNow: set<Conn>)
    requires Distinct(conns)
    ensures rest == Without(conns, Elements(disconnected)) && Distinct(rest)
    ensures forall c :: c in closedNow <==> c in conns && c in disconnected
  {
    rest := conns;
    closedNow := {};
    ghost var gone: set<Conn> := {};
    WithoutNothing(conns);
    for k := 0 to |disconnected|
      invariant forall c :: c in gone <==> c in disconnected[..k]
      invariant rest == Without(conns, gone)
      invariant Distinct(rest)
      invariant forall c :: c in closedNow <==> c in conns && c in gone
    {
      var c := disconnected[k];
      assert disconnected[..k + 1] == disconnected[..k] + [c];
      WithoutStep(conns, gone, c);
      if c in rest {
        var idx :| 0 <= idx < |rest| && rest[idx] == c;
        RemoveDistinct(rest, idx);
        rest := rest[..idx] + rest[idx + 1..];
        closedNow := closedNow + {c};
      } else {
        WithoutNone(rest, c);
      }
      gone := gone + {c};
    }
    assert disconnected[..|disconnected|] == disconnected;
    assert gone == Elements(disconnected);
  }

  /**
   * The server's invariant: the client list has no repeats, every listed client
   * has a delivery record, every recorded client has an id already handed out,
   * and every frame it received fits its length prefix.
   */
  ghost predicate Coherent(conns: seq<Conn>, delivered: map<Conn, seq<Bytes>>, next: Conn)
  {
    && Distinct(conns)
    && (forall c :: c in conns ==> c in delivered)
    && (forall c :: c in delivered ==> c < next && AllSendable(delivered[c]))
  }

  /** Dropping clients and extending streams with sendable frames keeps the invariant. */
  lemma DropKeepsCoherent(conns: seq<Conn>, delivered: map<Conn, seq<Bytes>>, next: Conn,
                          rest: seq<Conn>, out: map<Conn, seq<Bytes>>)
    requires Coherent(conns, delivered, next)
    requires out.Keys == delivered.Keys && forall c :: c in out ==> AllSendable(out[c])
    requires Distinct(rest) && forall c :: c in rest ==> c in conns
    ensures Coherent(rest, out, next)
  {
  }

  class WebcamServer {
    const host: string
    const port: int
    const cameraId: int
    var hasServerSocket: bool
    var serverSocketClosed: bool
    var connections: seq<Conn>
    var running: bool
    /** Client sockets `close()` has been called on. */
    var closed: set<Conn>
    /** The frames `sendall` delivered to each client ever accepted, in order. */
    var delivered: map<Conn, seq<Bytes>>
    /** The id the next accepted client gets. */
    var nextConn: Conn
    var cameraReopens: nat

    ghost predicate Valid()
      reads this
    {
      Coherent(connections, delivered, nextConn)
    }

    /** The bytes client `c` has received: its frames, each behind its length prefix. */
    function BytesSent(c: Conn): Bytes
      reads this
      requires Valid() && c in delivered
    {
      EncodeAll(Native, delivered[c])
    }

    constructor(host: string, port: int, cameraId: int)
      ensures Valid()
      ensures this.host == host && this.port == port && this.cameraId == cameraId
      ensures !hasServerSocket && connections == [] && !running
      ensures closed == {} && delivered == map[] && cameraReopens == 0
    {
      this.host := host;
      this.port := port;
      this.cameraId := cameraId;
      hasServerSocket := false;
      serverSocketClosed := false;
      connections := [];
      running := false;
      closed := {};
      delivered := map[];
      nextConn := 0;
      cameraReopens := 0;
    }

    /**
     * `_accept_connections`: while running, each successful `accept()` appends a
     * new client; the first failing `accept()` ends the loop.
     */
    method AcceptConnections(accepts: seq<bool>)
      requires Valid()
      modifies this
      ensures Valid()
      ensures var n := if old(running) then LeadingAccepts(accepts) else 0;
        && connections == old(connections) + Range(old(nextConn), n)
        && nextConn == old(nextConn) + n
        && (forall c :: c in delivered <==> c in old(delivered) || old(nextConn) <= c < nextConn)
        && (forall c :: c in old(delivered) ==> delivered[c] == old(delivered[c]))
        && (forall c :: c in delivered && c !in old(delivered) ==> delivered[c] == [])
      ensures running == old(running) && closed == old(closed) && cameraReopens == old(cameraReopens)
      ensures hasServerSocket == old(hasServerSocket) && serverSocketClosed == old(serverSocketClosed)
    {
      if !running {
        return;
      }
      var conns, out, next := connections, delivered, nextConn;
      var k := 0;
      while k < |accepts| && accepts[k]
        invariant 0 <= k <= |accepts|
        invariant forall i :: 0 <= i < k ==> accepts[i]
        invariant conns == connections + Range(nextConn, k)
        invariant next == nextConn + k
        invariant Distinct(conns) && forall c :: c in conns ==> c < next
        invariant forall c :: c in out <==> c in delivered || nextConn <= c < next
        invariant forall c :: c in delivered ==> out[c] == delivered[c]
        invariant forall c :: c in out && c !in delivered ==> out[c] == []
        decreases |accepts| - k
      {
        assert next !in conns;
        conns := conns + [next];
        out := out[next := []];
        next := next + 1;
        k := k + 1;
      }
      connections, delivered, nextConn := conns, out, next;
    }

    /**
     * One frame of `_stream_webcam`: the length-prefixed frame goes to every
     * client in order; the clients whose send failed are then removed from the
     * list and closed, the others keep their order.
     */
    method BroadcastFrame(payload: Bytes, failing: set<Conn>)
      requires Valid() && |payload| < QLimit
      modifies this
      ensures Valid()
      ensures connections == Without(old(connections), failing)
      ensures delivered.Keys == old(delivered).Keys
      ensures forall c :: c in delivered ==>
        delivered[c] == (if c in old(connections) && c !in failing then old(delivered[c]) + [payload] else old(delivered[c]))
      ensures forall c :: c in closed <==> c in old(closed) || (c in old(connections) && c in failing)
      ensures running == old(running) && nextConn == old(nextConn) && cameraReopens == old(cameraReopens)
      ensures hasServerSocket == old(hasServerSocket) && serverSocketClosed == old(serverSocketClosed)
    {
      var out, disconnected := SendToClients(connections, delivered, payload, failing);
      var rest, closedNow := DropClients(connections, disconnected);
      WithoutAgree(connections, Elements(disconnected), failing);
      DeliveryStaysSendable(delivered, out, connections, failing, payload);
      DropKeepsCoherent(connections, delivered, nextConn, rest, out);
      connections, delivered, closed := rest, out, closed + closedNow;
    }

    /** `stop`: clears `running`, closes every client and the listening socket; the list itself is kept. */
    method Stop()
      requires Valid()
      modifies this
      ensures Valid()
      ensures !running
      ensures connections == old(connections)
      ensures closed == old(closed) + set c | c in connections
      ensures serverSocketClosed == (old(serverSocketClosed) || hasServerSocket)
      ensures delivered == old(delivered) && nextConn == old(nextConn)
      ensures hasServerSocket == old(hasServerSocket) && cameraReopens == old(cameraReopens)
    {
      running := false;
      var shut := closed;
      for i := 0 to |connections|
        invariant shut == closed + set j | 0 <= j < i :: connections[j]
      {
        shut := shut + {connections[i]};
      }
      assert (set j | 0 <= j < |connections| :: connections[j]) == set c | c in connections;
      closed := shut;
      if hasServerSocket {
        serverSocketClosed := true;
      }
    }

    /**
     * `_stream_webcam`: when the camera does not open the server stops. Otherwise
     * each event is one loop iteration: a failed read reopens the camera; a frame
     * is broadcast, and `q` ends the loop. A frame too large for its length
     * prefix raises and ends the loop too. Leaving the loop stops the server;
     * events running out only ends the modelled part of the stream.
     */
    method StreamWebcam(cameraOpens: bool, events: seq<CaptureEvent>)
      requires Valid()
      modifies this
      ensures Valid()
      ensures !cameraOpens ==> !running && connections == old(connections) && delivered == old(delivered)
      ensures delivered.Keys == old(delivered).Keys
      ensures forall c :: c in old(delivered) ==> old(delivered[c]) <= delivered[c]
      ensures forall c :: c in connections ==> c in old(connections)
      ensures hasServerSocket == old(hasServerSocket)
    {
      if !cameraOpens {
        Stop();
        return;
      }
      var k := 0;
      var leave := false;
      while running && k < |events| && !leave
        invariant 0 <= k <= |events|
        invariant Valid()
        invariant delivered.Keys == old(delivered).Keys
        invariant forall c :: c in old(delivered) ==> old(delivered[c]) <= delivered[c]
        invariant forall c :: c in connections ==> c in old(connections)
        invariant hasServerSocket == old(hasServerSocket)
        decreases |events| - k
      {
        match events[k] {
          case CaptureFailed =>
            cameraReopens := cameraReopens + 1;
          case Captured(payload, failing, quitPressed) =>
            if |payload| >= QLimit {
              leave := true;
            } else {
              BroadcastFrame(payload, failing);
              leave := quitPressed;
            }
        }
        k := k + 1;
      }
      if leave || !running {
        Stop();
      }
    }

    /** `start`: a failed bind stops the server; otherwise it runs and streams. */
    method Start(bindOk: bool, cameraOpens: bool, events: seq<CaptureEvent>)
      requires Valid()
      modifies this
      ensures Valid()
      ensures hasServerSocket
      ensures !bindOk ==> !running && serverSocketClosed && connections == old(connections) && delivered == old(delivered)
      ensures bindOk && !cameraOpens ==> !running && connections == old(connections) && delivered == old(delivered)
      ensures delivered.Keys == old(delivered).Keys
      ensures forall c :: c in old(delivered) ==> old(delivered[c]) <= delivered[c]
    {
      hasServerSocket := true;
      if !bindOk {
        Stop();
        return;
      }
      running := true;
      StreamWebcam(cameraOpens, events);
    }
  }

  /** Adding one frame below the size limit to some streams keeps every stream sendable. */
  lemma DeliveryStaysSendable(delivered: map<Conn, seq<Bytes>>, out: map<Conn, seq<Bytes>>, conns: seq<Conn>,
                              failing: set<Conn>, payload: Bytes)
    requires |payload| < QLimit
    requires forall c :: c in delivered ==> AllSendable(delivered[c])
    requires out.Keys == delivered.Keys
    requires forall c :: c in out ==>
      out[c] == (if c in conns && c !in failing then delivered[c] + [payload] else delivered[c])
    ensures forall c :: c in out ==> AllSendable(out[c])
  {
    forall c | c in out ensures AllSendable(out[c]) {
      if c in conns && c !in failing {
        assert AllSendable(delivered[c]);
        assert forall i :: 0 <= i < |delivered[c]| ==> (delivered[c] + [payload])[i] == delivered[c][i];
      }
    }
  }

  /**
   * What a client receives after one more broadcast is its earlier byte stream
   * followed by the new frame's message, so a client reading the stream in order
   * decodes exactly the frames it was sent.
   */
  lemma BroadcastExtendsStream(frames: seq<Bytes>, payload: Bytes)
    requires AllSendable(frames) && |payload| < QLimit
    ensures AllSendable(frames + [payload])
    ensures EncodeAll(Native, frames + [payload]) == EncodeAll(Native, frames) + EncodeMessage(Native, payload).value
    ensures DecodeAll(Native, EncodeAll(Native, frames + [payload])) == frames + [payload]
  {
    assert AllSendable(frames + [payload]);
    assert (frames + [payload])[..|frames|] == frames;
    StreamRoundTrip(Native, frames + [payload]);
  }

  lemma {:induction false} WithoutAgree(s: seq<Conn>, a: set<Conn>, b: set<Conn>)
    requires forall c :: c in s ==> (c in a <==> c in b)
    ensures Without(s, a) == Without(s, b)
  {
    if s != [] {
      WithoutAgree(s[1..], a, b);
    }
  }
}

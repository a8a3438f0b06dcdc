/**
 * The bookkeeping of the posture worker (`modelScrpits/simple_posture_detection.py`):
 * the label of a frame, the main loop that reads frames off the buffered
 * reader and saves a posture at most every three seconds, and the alert rule
 * applied after each save.
 *
 * Mediapipe and the classifier are abstracted to a function from a frame's
 * payload to the classifier's prediction, absent when no landmarks were
 * found; the clock is a function from the number of frames already processed
 * to the time in milliseconds.
 */
module PostureWorker {
  import opened Common
  import opened FrameWire
  import opened FrameReceive

  /** `save_interval`, 3 s, in milliseconds. */
  const SaveIntervalMs: int := 3000
  /** How many of the most recent predictions the alert rule looks at, and how many of them must be bad. */
  const AlertWindow: nat := 3
  const AlertBadCount: nat := 2

  datatype Posture = Unknown | GoodPosture | BadPosture

  function PostureLabel(p: Posture): string
  {
    match p
    case Unknown => "Unknown"
    case GoodPosture => "Good Posture"
    case BadPosture => "Bad Posture"
  }

  /**
   * The posture of a frame: "Unknown" without landmarks, otherwise "Good
   * Posture" exactly when the classifier predicts class 1.
   */
  function Classify(prediction: Option<int>): (p: Posture)
    ensures p == Unknown <==> prediction.None?
    ensures p == GoodPosture <==> prediction == Some(1)
    ensures p == BadPosture <==> prediction.Some? && prediction.value != 1
  {
    match prediction
    case None => Unknown
    case Some(c) => if c == 1 then GoodPosture else BadPosture
  }

  // ---------------------------------------------------------------------------
  // The alert rule of save_posture_data
  // ---------------------------------------------------------------------------

  /**
   * How many of these predictions are bad postures; each entry is the
   * `posture` field of a stored prediction, absent when it has none.
   */
  function BadCount(recent: seq<Option<string>>): (n: nat)
    ensures n <= |recent|
  {
    if recent == [] then 0
    else (if recent[0] == Some(PostureLabel(BadPosture)) then 1 else 0) + BadCount(recent[1..])
  }

  datatype PostureAlert = PostureAlert(message: string, level: string, consecutiveBadPostures: nat)

  /**
   * The alert `save_posture_data` saves after storing `posture`: only when the
   * save returned a key, the posture is bad, there are at least three recent
   * predictions and at least two of the last three are bad.
   */
  function AlertAfterSave(posture: Posture, keyReturned: bool, recent: seq<Option<string>>): (r: Option<PostureAlert>)
    ensures r.Some? ==> r.value.level == "warning" && AlertBadCount <= r.value.consecutiveBadPostures <= AlertWindow
  {
    if keyReturned && posture == BadPosture && |recent| >= AlertWindow then
      var bad := BadCount(recent[|recent| - AlertWindow..]);
      if bad >= AlertBadCount then
        Some(PostureAlert("Poor posture detected! Please adjust your sitting position.", "warning", bad))
      else None
    else None
  }

  /**
   * When the prediction just saved is the newest of the recent ones, the alert
   * is raised exactly when one of the two predictions before it was bad as
   * well; nothing is raised after a good posture or a failed save.
   */
  lemma AlertNeedsAnotherBadPosture(posture: Posture, keyReturned: bool, recent: seq<Option<string>>)
    requires |recent| >= 1 && recent[|recent| - 1] == Some(PostureLabel(posture))
    ensures AlertAfterSave(posture, keyReturned, recent).Some? <==>
      keyReturned && posture == BadPosture && |recent| >= 3 &&
      (recent[|recent| - 3] == Some("Bad Posture") || recent[|recent| - 2] == Some("Bad Posture"))
  {
    if keyReturned && posture == BadPosture && |recent| >= 3 {
      var last := recent[|recent| - 3..];
      assert last == [recent[|recent| - 3], recent[|recent| - 2], recent[|recent| - 1]];
      assert BadCount(last[1..][1..]) == 1 by {
        assert last[1..][1..] == [recent[|recent| - 1]];
        assert last[1..][1..][1..] == [];
      }
      assert BadCount(last) == BadCount(last[1..][1..])
        + (if recent[|recent| - 3] == Some("Bad Posture") then 1 else 0)
        + (if recent[|recent| - 2] == Some("Bad Posture") then 1 else 0);
    }
  }

  // ---------------------------------------------------------------------------
  // The main loop
  // ---------------------------------------------------------------------------

  datatype SavedPosture = SavedPosture(posture: Posture, timestamp: int)

  /** How the main loop ends: the server closed the connection, or a payload never completes. */
  datatype RunEnd = ServerClosed | WaitingForever

  /**
   * The postures the main loop saves from read `i` on, with `data` buffered,
   * `frameNo` frames processed and the last save at `lastSave`, and how the
   * loop ends.
   */
  function PostureRun(data: Bytes, packets: seq<Bytes>, i: nat, frameNo: nat, lastSave: int,
                      clock: nat -> int, analyse: Bytes -> Option<int>): (seq<SavedPosture>, RunEnd)
    requires i <= |packets|
    decreases |packets| - i, |data|
  {
    match NextFrameSpec(data, packets, i, false)
    case Closed => ([], ServerClosed)
    case Stalled => ([], WaitingForever)
    case Frame(payload, rest, j) =>
      var posture := Classify(analyse(payload));
      var now := clock(frameNo);
      if now - lastSave >= SaveIntervalMs && posture != Unknown then
        var tail := PostureRun(rest, packets, j, frameNo + 1, now, clock, analyse);
        ([SavedPosture(posture, now)] + tail.0, tail.1)
      else PostureRun(rest, packets, j, frameNo + 1, lastSave, clock, analyse)
  }

  /**
   * `main` from its first read: returns the postures saved and how the loop
   * ended.
   */
  method RunPosture(packets: seq<Bytes>, start: int, clock: nat -> int, analyse: Bytes -> Option<int>)
    returns (saved: seq<SavedPosture>, end: RunEnd)
    ensures (saved, end) == PostureRun([], packets, 0, 0, start, clock, analyse)
  {
    var data: Bytes := [];
    var i: nat := 0;
    var frameNo: nat := 0;
    var lastSave := start;
    saved := [];
    assert saved + PostureRun(data, packets, i, frameNo, lastSave, clock, analyse).0
      == PostureRun(data, packets, i, frameNo, lastSave, clock, analyse).0;
    while true
      invariant i <= |packets|
      invariant PostureLoop(saved, data, packets, i, frameNo, lastSave, clock, analyse, start)
      decreases |packets| - i, |data|
    {
      var next := NextFrame(data, packets, i, false);
      match next
      case Closed =>
        assert saved + [] == saved;
        return saved, ServerClosed;
      case Stalled =>
        assert saved + [] == saved;
        return saved, WaitingForever;
      case Frame(payload, rest, j) =>
        var posture := Classify(analyse(payload));
        var now := clock(frameNo);
        PostureLoopStep(saved, data, packets, i, frameNo, lastSave, clock, analyse, start);
        if now - lastSave >= SaveIntervalMs && posture != Unknown {
          saved := saved + [SavedPosture(posture, now)];
          lastSave := now;
        }
        data, i, frameNo := rest, j, frameNo + 1;
    }
  }

  /** What `RunPosture` keeps: the saves so far followed by the rest of the run are the whole run. */
  ghost predicate PostureLoop(saved: seq<SavedPosture>, data: Bytes, packets: seq<Bytes>, i: nat, frameNo: nat, lastSave: int,
                              clock: nat -> int, analyse: Bytes -> Option<int>, start: int)
    requires i <= |packets|
  {
    var r := PostureRun(data, packets, i, frameNo, lastSave, clock, analyse);
    (saved + r.0, r.1) == PostureRun([], packets, 0, 0, start, clock, analyse)
  }

  /** One frame of `RunPosture` keeps `PostureLoop`. */
  lemma PostureLoopStep(saved: seq<SavedPosture>, data: Bytes, packets: seq<Bytes>, i: nat, frameNo: nat, lastSave: int,
                        clock: nat -> int, analyse: Bytes -> Option<int>, start: int)
    requires i <= |packets| && NextFrameSpec(data, packets, i, false).Frame?
    requires PostureLoop(saved, data, packets, i, frameNo, lastSave, clock, analyse, start)
    ensures var f := NextFrameSpec(data, packets, i, false);
      var posture := Classify(analyse(f.payload));
      var now := clock(frameNo);
      var save := now - lastSave >= SaveIntervalMs && posture != Unknown;
      PostureLoop(if save then saved + [SavedPosture(posture, now)] else saved, f.leftover, packets, f.next, frameNo + 1,
                  if save then now else lastSave, clock, analyse, start)
  {
    var f := NextFrameSpec(data, packets, i, false);
    var posture := Classify(analyse(f.payload));
    var now := clock(frameNo);
    if now - lastSave >= SaveIntervalMs && posture != Unknown {
      var tail := PostureRun(f.leftover, packets, f.next, frameNo + 1, now, clock, analyse).0;
      assert (saved + [SavedPosture(posture, now)]) + tail == saved + ([SavedPosture(posture, now)] + tail);
    }
  }

  /**
   * Every saved posture is known, and saves are at least three seconds apart
   * (the first at least three seconds after `lastSave`).
   */
  lemma {:induction false} SavesGated(data: Bytes, packets: seq<Bytes>, i: nat, frameNo: nat, lastSave: int,
                                      clock: nat -> int, analyse: Bytes -> Option<int>)
    requires i <= |packets|
    ensures var s := PostureRun(data, packets, i, frameNo, lastSave, clock, analyse).0;
      forall k :: 0 <= k < |s| ==> s[k].posture != Unknown
    ensures var s := PostureRun(data, packets, i, frameNo, lastSave, clock, analyse).0;
      |s| > 0 ==> s[0].timestamp - lastSave >= SaveIntervalMs
    ensures var s := PostureRun(data, packets, i, frameNo, lastSave, clock, analyse).0;
      forall k :: 0 < k < |s| ==> s[k].timestamp - s[k - 1].timestamp >= SaveIntervalMs
    decreases |packets| - i, |data|
  {
    match NextFrameSpec(data, packets, i, false)
    case Closed =>
    case Stalled =>
    case Frame(payload, rest, j) =>
      var posture := Classify(analyse(payload));
      var now := clock(frameNo);
      if now - lastSave >= SaveIntervalMs && posture != Unknown {
        SavesGated(rest, packets, j, frameNo + 1, now, clock, analyse);
        var tail := PostureRun(rest, packets, j, frameNo + 1, now, clock, analyse).0;
        var s := PostureRun(data, packets, i, frameNo, lastSave, clock, analyse).0;
        assert s == [SavedPosture(posture, now)] + tail;
        forall k | 0 < k < |s|
          ensures s[k].posture != Unknown
          ensures s[k].timestamp - s[k - 1].timestamp >= SaveIntervalMs
        {
          assert s[k] == tail[k - 1];
          if k > 1 {
            assert s[k - 1] == tail[k - 2];
          }
        }
      } else {
        SavesGated(rest, packets, j, frameNo + 1, lastSave, clock, analyse);
      }
  }

  lemma NothingLeftMeansEnd(packets: seq<Bytes>, i: nat)
    requires i <= |packets| && NoEmptyReads(packets, i) && Remaining(packets, i) == []
    ensures i == |packets|
  {
    if i < |packets| {
      RemainingStep(packets, i);
    }
  }

  /**
   * A server that sends whole frames and then closes the connection ends the
   * loop normally, after at most one save per frame, however its bytes were
   * split into reads.
   */
  lemma {:induction false} ClosedStreamEndsLoop(payloads: seq<Bytes>, data: Bytes, packets: seq<Bytes>, i: nat,
                                                frameNo: nat, lastSave: int, clock: nat -> int, analyse: Bytes -> Option<int>)
    requires i <= |packets|
    requires AllSendable(payloads) && NoEmptyReads(packets, i)
    requires data + Remaining(packets, i) == EncodeAll(Native, payloads)
    ensures PostureRun(data, packets, i, frameNo, lastSave, clock, analyse).1 == ServerClosed
    ensures |PostureRun(data, packets, i, frameNo, lastSave, clock, analyse).0| <= |payloads|
    decreases |payloads|
  {
    if payloads == [] {
      assert data == [] && Remaining(packets, i) == [];
      NothingLeftMeansEnd(packets, i);
      assert FillPrefix(packets, i, data, false) == PeerClosed;
    } else {
      EncodeAllCons(Native, payloads);
      var tail := EncodeAll(Native, payloads[1..]);
      assert data + Remaining(packets, i) == EncodeMessage(Native, payloads[0]).value + tail;
      NextFrameDelivers(payloads[0], tail, data, packets, i, false);
      var r := NextFrameSpec(data, packets, i, false);
      assert NoEmptyReads(packets, r.next);
      var now := clock(frameNo);
      ClosedStreamEndsLoop(payloads[1..], r.leftover, packets, r.next, frameNo + 1, now, clock, analyse);
      ClosedStreamEndsLoop(payloads[1..], r.leftover, packets, r.next, frameNo + 1, lastSave, clock, analyse);
    }
  }
}

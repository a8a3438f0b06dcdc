/**
 * The blink counting of `BlinkDetector` (`modelScrpits/cvs_detection.py`).
 *
 * The eye aspect ratio of a face is abstracted to whether it is below the
 * threshold (the eyes are closed); a frame is the sequence of these flags,
 * one per detected face, and an empty sequence is a frame without a face.
 * Time is in milliseconds and is a parameter of each call. What the detector
 * hands to `save_prediction` and to the alert manager is recorded in its
 * state.
 */
module CvsDetection {
  import opened Common

  /** Frames the eyes must stay closed for the opening to count as a blink. */
  const EyeArConsecFrames: nat := 2
  const NormalBlinkRateMin: int := 17
  const NormalBlinkRateMax: int := 20
  /** Frames without a face before the detector gives up on the current minute. */
  const MaxNoFaceFrames: nat := 30
  /** One blink-rate window, in milliseconds. */
  const WindowMs: int := 60000
  /** The rate saved for a minute in which no face was seen. */
  const NoFaceBlinkRate: int := 18

  datatype BlinkAlert = HighBlinkRate(rate: int) | LowBlinkRate(rate: int)

  /** `_check_blink_rate_alert`: above 20 is high, below 17 is low, 17 to 20 raises nothing. */
  function CheckBlinkRate(rate: int): (a: Option<BlinkAlert>)
    ensures a == Some(HighBlinkRate(rate)) <==> rate > NormalBlinkRateMax
    ensures a == Some(LowBlinkRate(rate)) <==> rate < NormalBlinkRateMin
    ensures a.None? <==> NormalBlinkRateMin <= rate <= NormalBlinkRateMax
  {
    if rate > NormalBlinkRateMax then Some(HighBlinkRate(rate))
    else if rate < NormalBlinkRateMin then Some(LowBlinkRate(rate))
    else None
  }

  function AlertList(a: Option<BlinkAlert>): seq<BlinkAlert>
  {
    if a.Some? then [a.value] else []
  }

  // ---------------------------------------------------------------------------
  // Counting blinks
  // ---------------------------------------------------------------------------

  /** One face: closed eyes extend the run; opened eyes end it, and a run of two or more is a blink. */
  function EyeStep(counter: nat, total: nat, closed: bool): (nat, nat)
  {
    if closed then (counter + 1, total)
    else if counter >= EyeArConsecFrames then (0, total + 1)
    else (0, total)
  }

  /** The faces of a frame, processed in order; the result is the new run length and blink total. */
  function BlinkFold(counter: nat, total: nat, eyes: seq<bool>): (nat, nat)
    decreases |eyes|
  {
    if eyes == [] then (counter, total)
    else
      var (c, t) := EyeStep(counter, total, eyes[0]);
      BlinkFold(c, t, eyes[1..])
  }

  /** How many observations at the end of `eyes` are closed. */
  function TrailingClosed(eyes: seq<bool>): (n: nat)
    ensures n <= |eyes|
  {
    if eyes == [] || !eyes[|eyes| - 1] then 0 else TrailingClosed(eyes[..|eyes| - 1]) + 1
  }

  /** The closed run at the end of `eyes`, continuing the run `carry` that came before them if all are closed. */
  function ClosedRun(carry: nat, eyes: seq<bool>): nat
  {
    if TrailingClosed(eyes) == |eyes| then carry + |eyes| else TrailingClosed(eyes)
  }

  /** Blinks in `eyes`: the open observations preceded by a closed run of at least two. */
  function CountBlinks(carry: nat, eyes: seq<bool>): nat
  {
    if eyes == [] then 0
    else
      var init := eyes[..|eyes| - 1];
      CountBlinks(carry, init) + (if !eyes[|eyes| - 1] && ClosedRun(carry, init) >= EyeArConsecFrames then 1 else 0)
  }

  lemma {:induction false} BlinkFoldSnoc(counter: nat, total: nat, eyes: seq<bool>, closed: bool)
    ensures BlinkFold(counter, total, eyes + [closed]) ==
      EyeStep(BlinkFold(counter, total, eyes).0, BlinkFold(counter, total, eyes).1, closed)
    decreases |eyes|
  {
    if eyes == [] {
      assert [closed][1..] == [];
    } else {
      var (c, t) := EyeStep(counter, total, eyes[0]);
      assert (eyes + [closed])[1..] == eyes[1..] + [closed];
      BlinkFoldSnoc(c, t, eyes[1..], closed);
    }
  }

  lemma ClosedRunSnoc(carry: nat, eyes: seq<bool>, closed: bool)
    ensures ClosedRun(carry, eyes + [closed]) == if closed then ClosedRun(carry, eyes) + 1 else 0
  {
    assert (eyes + [closed])[..|eyes|] == eyes;
  }

  /**
   * The counter logic finds exactly the blinks of the reference count, and the
   * run it carries into the next frame is the closed run at the end.
   */
  lemma {:induction false} BlinkFoldCounts(carry: nat, total: nat, eyes: seq<bool>)
    ensures BlinkFold(carry, total, eyes) == (ClosedRun(carry, eyes), total + CountBlinks(carry, eyes))
    decreases |eyes|
  {
    if eyes != [] {
      var init := eyes[..|eyes| - 1];
      var last := eyes[|eyes| - 1];
      assert eyes == init + [last];
      BlinkFoldCounts(carry, total, init);
      BlinkFoldSnoc(carry, total, init, last);
      ClosedRunSnoc(carry, init, last);
    } else {
      assert TrailingClosed(eyes) == 0;
    }
  }

  // ---------------------------------------------------------------------------
  // The detector
  // ---------------------------------------------------------------------------

  /** A blink rate handed to `save_prediction('cvs', ...)` and the time of the save. */
  datatype SavedRate = SavedRate(blinkCount: real, timestamp: int)

  datatype BlinkState = BlinkState(
    blinkCounter: nat,
    totalBlinks: nat,
    blinkStart: int,
    frameCounter: nat,
    lastBlinkRate: int,
    lastDataSave: int,
    noFaceCounter: nat,
    running: bool,
    saved: seq<SavedRate>,
    alerts: seq<BlinkAlert>)

  function InitialState(now: int): BlinkState
  {
    BlinkState(0, 0, now, 0, 0, now, 0, true, [], [])
  }

  /** The no-face rule: after 30 faceless frames and a minute, 18 is saved and the minute starts over. */
  function NoFaceStep(s: BlinkState, now: int): (r: BlinkState)
  {
    var s1 := s.(noFaceCounter := s.noFaceCounter + 1);
    if s1.noFaceCounter >= MaxNoFaceFrames && now - s1.blinkStart >= WindowMs then
      s1.(saved := s1.saved + [SavedRate(NoFaceBlinkRate as real, now)], blinkStart := now, lastDataSave := now)
    else s1
  }

  /** The window rule: once a minute has passed, the minute's blinks are saved and checked, and counting restarts. */
  function WindowStep(s: BlinkState, now: int): (r: BlinkState)
  {
    if now - s.blinkStart >= WindowMs then
      var rate := s.totalBlinks;
      s.(saved := s.saved + [SavedRate(rate as real, now)], lastDataSave := now,
         alerts := s.alerts + AlertList(CheckBlinkRate(rate)),
         lastBlinkRate := rate, totalBlinks := 0, blinkStart := now)
    else s
  }

  /**
   * `detect_blinks` on one frame. A frame with a face resets the faceless
   * count and adds the blinks completed in it to the minute's total; a minute
   * that has run its course is saved, with an alert outside 17 to 20, and the
   * count starts again from zero.
   */
  function DetectSpec(s: BlinkState, eyes: seq<bool>, now: int): (r: BlinkState)
    ensures r.frameCounter == s.frameCounter + 1 && r.running == s.running
    ensures eyes == [] ==> r.noFaceCounter == s.noFaceCounter + 1 && r.blinkCounter == s.blinkCounter
    ensures eyes != [] ==> r.noFaceCounter == 0 && r.blinkCounter == ClosedRun(s.blinkCounter, eyes)
    ensures var rate := s.totalBlinks + (if eyes == [] then 0 else CountBlinks(s.blinkCounter, eyes));
      var noFaceSave := eyes == [] && s.noFaceCounter + 1 >= MaxNoFaceFrames && now - s.blinkStart >= WindowMs;
      && (noFaceSave ==>
            r.saved == s.saved + [SavedRate(NoFaceBlinkRate as real, now)] && r.alerts == s.alerts &&
            r.totalBlinks == s.totalBlinks && r.blinkStart == now)
      && (!noFaceSave && now - s.blinkStart >= WindowMs ==>
            r.saved == s.saved + [SavedRate(rate as real, now)] && r.alerts == s.alerts + AlertList(CheckBlinkRate(rate)) &&
            r.lastBlinkRate == rate && r.totalBlinks == 0 && r.blinkStart == now)
      && (now - s.blinkStart < WindowMs ==>
            r.saved == s.saved && r.alerts == s.alerts && r.totalBlinks == rate && r.blinkStart == s.blinkStart)
  {
    var s1 :=
      if eyes == [] then NoFaceStep(s, now)
      else
        var (c, t) := BlinkFold(s.blinkCounter, s.totalBlinks, eyes);
        s.(noFaceCounter := 0, blinkCounter := c, totalBlinks := t);
    BlinkFoldCounts(s.blinkCounter, s.totalBlinks, eyes);
    WindowStep(s1.(frameCounter := s1.frameCounter + 1), now)
  }

  lemma PerMinute(count: real, elapsedMs: real)
    requires elapsedMs > 0.0
    ensures count / (elapsedMs / 1000.0) * 60.0 == count * 60000.0 / elapsedMs
  {
    var perSecond := count / (elapsedMs / 1000.0);
    assert perSecond * (elapsedMs / 1000.0) == count;
    assert perSecond * 60.0 * elapsedMs == count * 60000.0;
  }

  /** `stop`: the partial minute's rate, scaled to a minute, is saved when there is one. */
  function StopSpec(s: BlinkState, now: int): (r: BlinkState)
    ensures !r.running
    ensures var elapsed := now - s.blinkStart;
      if elapsed > 0 && s.totalBlinks > 0
      then r.saved == s.saved + [SavedRate((s.totalBlinks as real) * (WindowMs as real) / (elapsed as real), now)]
      else r.saved == s.saved
    ensures r.totalBlinks == s.totalBlinks && r.alerts == s.alerts
  {
    var elapsed := now - s.blinkStart;
    if elapsed > 0 && s.totalBlinks > 0 then
      PerMinute(s.totalBlinks as real, elapsed as real);
      s.(running := false, saved := s.saved + [SavedRate((s.totalBlinks as real) / ((elapsed as real) / 1000.0) * 60.0, now)])
    else s.(running := false)
  }

  /** Within one minute with a face in view, blinks only accumulate: nothing is saved or raised. */
  lemma {:induction false} BlinksAccumulateWithinMinute(s: BlinkState, frames: seq<seq<bool>>, now: int)
    requires forall i :: 0 <= i < |frames| ==> frames[i] != []
    requires now - s.blinkStart < WindowMs
    ensures var r := DetectAll(s, frames, now);
      r.saved == s.saved && r.alerts == s.alerts && r.blinkStart == s.blinkStart &&
      r.totalBlinks == s.totalBlinks + CountBlinks(s.blinkCounter, Flatten(frames)) &&
      r.blinkCounter == ClosedRun(s.blinkCounter, Flatten(frames))
    decreases |frames|
  {
    if frames != [] {
      var s1 := DetectSpec(s, frames[0], now);
      BlinksAccumulateWithinMinute(s1, frames[1..], now);
      CountAcrossFrames(s.blinkCounter, frames[0], Flatten(frames[1..]));
    }
  }

  /** Eye observations of consecutive frames, in order. */
  function Flatten(frames: seq<seq<bool>>): seq<bool>
  {
    if frames == [] then [] else frames[0] + Flatten(frames[1..])
  }

  /** Several frames seen at the same time. */
  function DetectAll(s: BlinkState, frames: seq<seq<bool>>, now: int): BlinkState
    decreases |frames|
  {
    if frames == [] then s else DetectAll(DetectSpec(s, frames[0], now), frames[1..], now)
  }

  /** Counting over two stretches one after the other equals counting over both at once. */
  lemma {:induction false} CountAcrossFrames(carry: nat, first: seq<bool>, rest: seq<bool>)
    ensures CountBlinks(carry, first + rest) == CountBlinks(carry, first) + CountBlinks(ClosedRun(carry, first), rest)
    ensures ClosedRun(carry, first + rest) == ClosedRun(ClosedRun(carry, first), rest)
  {
    BlinkFoldCounts(carry, 0, first + rest);
    BlinkFoldCounts(carry, 0, first);
    BlinkFoldCounts(ClosedRun(carry, first), CountBlinks(carry, first), rest);
    BlinkFoldAppend(carry, 0, first, rest);
  }

  lemma {:induction false} BlinkFoldAppend(counter: nat, total: nat, first: seq<bool>, rest: seq<bool>)
    ensures BlinkFold(counter, total, first + rest) ==
      BlinkFold(BlinkFold(counter, total, first).0, BlinkFold(counter, total, first).1, rest)
    decreases |first|
  {
    if first != [] {
      var (c, t) := EyeStep(counter, total, first[0]);
      assert (first + rest)[1..] == first[1..] + rest;
      BlinkFoldAppend(c, t, first[1..], rest);
    } else {
      assert first + rest == rest;
    }
  }

  class BlinkDetector {
    var blinkCounter: nat
    var totalBlinks: nat
    var blinkStart: int
    var frameCounter: nat
    var lastBlinkRate: int
    var lastDataSave: int
    var noFaceCounter: nat
    var running: bool
    var saved: seq<SavedRate>
    var alerts: seq<BlinkAlert>

    function State(): BlinkState
      reads this
    {
      BlinkState(blinkCounter, totalBlinks, blinkStart, frameCounter, lastBlinkRate, lastDataSave, noFaceCounter, running, saved, alerts)
    }

    constructor(now: int)
      ensures State() == InitialState(now)
    {
      blinkCounter := 0;
      totalBlinks := 0;
      blinkStart := now;
      frameCounter := 0;
      lastBlinkRate := 0;
      lastDataSave := now;
      noFaceCounter := 0;
      running := true;
      saved := [];
      alerts := [];
    }

    /** `_check_blink_rate_alert`. */
    method CheckBlinkRateAlert(rate: int)
      modifies this
      ensures State() == old(State()).(alerts := old(alerts) + AlertList(CheckBlinkRate(rate)))
    {
      if rate > NormalBlinkRateMax {
        alerts := alerts + [HighBlinkRate(rate)];
      } else if rate < NormalBlinkRateMin {
        alerts := alerts + [LowBlinkRate(rate)];
      }
    }

    /** The loop over the faces of one frame: extend the closed run, or count a blink when it ends. */
    static method FoldFaces(counter0: nat, total0: nat, eyes: seq<bool>) returns (counter: nat, total: nat)
      ensures (counter, total) == BlinkFold(counter0, total0, eyes)
    {
      counter, total := counter0, total0;
      for i := 0 to |eyes|
        invariant BlinkFold(counter, total, eyes[i..]) == BlinkFold(counter0, total0, eyes)
      {
        assert eyes[i..][1..] == eyes[i + 1..];
        if eyes[i] {
          counter := counter + 1;
        } else {
          if counter >= EyeArConsecFrames {
            total := total + 1;
          }
          counter := 0;
        }
      }
      assert eyes[|eyes|..] == [];
    }

    method DetectBlinks(eyes: seq<bool>, now: int)
      modifies this
      ensures State() == DetectSpec(old(State()), eyes, now)
    {
      ghost var s0 := State();
      if |eyes| == 0 {
        noFaceCounter := noFaceCounter + 1;
        if noFaceCounter >= MaxNoFaceFrames && now - blinkStart >= WindowMs {
          saved := saved + [SavedRate(NoFaceBlinkRate as real, now)];
          blinkStart := now;
          lastDataSave := now;
        }
      } else {
        noFaceCounter := 0;
        blinkCounter, totalBlinks := FoldFaces(blinkCounter, totalBlinks, eyes);
      }
      frameCounter := frameCounter + 1;
      ghost var s1 :=
        if eyes == [] then NoFaceStep(s0, now)
        else
          var (c, t) := BlinkFold(s0.blinkCounter, s0.totalBlinks, eyes);
          s0.(noFaceCounter := 0, blinkCounter := c, totalBlinks := t);
      assert State() == s1.(frameCounter := s1.frameCounter + 1);
      CloseWindowIfDue(now);
    }

    /** The end of `detect_blinks`: once the minute is over, save and check its blink count and restart it. */
    method CloseWindowIfDue(now: int)
      modifies this
      ensures State() == WindowStep(old(State()), now)
    {
      if now - blinkStart >= WindowMs {
        var rate := totalBlinks;
        saved := saved + [SavedRate(rate as real, now)];
        lastDataSave := now;
        CheckBlinkRateAlert(rate);
        lastBlinkRate := rate;
        totalBlinks := 0;
        blinkStart := now;
      }
    }

    method Stop(now: int)
      modifies this
      ensures State() == StopSpec(old(State()), now)
    {
      running := false;
      var elapsed := now - blinkStart;
      if elapsed > 0 && totalBlinks > 0 {
        var rate := (totalBlinks as real) / ((elapsed as real) / 1000.0) * 60.0;
        saved := saved + [SavedRate(rate, now)];
      }
    }
  }
}

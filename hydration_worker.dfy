/**
 * The bookkeeping of the hydration worker (`modelScrpits/hydration_detection.py`):
 * its command line, the lip label of a frame, the sampling of one label per
 * second for two minutes, and the summary and alert computed at the end.
 *
 * The image analysis is abstracted: a frame is the sequence of mouths the
 * cascades found in it, each with whether it lies in the upper half of its
 * face, its normalised texture and its combined dryness score. Time is in
 * milliseconds; percentages are exact rationals.
 */
module HydrationWorker {
  import opened Common

  /** `MONITORING_DURATION`, 120 s, in milliseconds. */
  const MonitoringDurationMs: int := 120000
  /** `save_interval`, 1 s, in milliseconds. */
  const SaveIntervalMs: int := 1000
  /** `DRYNESS_THRESHOLD`. */
  const DrynessThreshold: real := 0.17
  /** The dry-lips percentage above which a dehydration alert is saved. */
  const AlertPercentage: real := 60.0

  // ---------------------------------------------------------------------------
  // Command line
  // ---------------------------------------------------------------------------

  datatype UserInfo = UserInfo(email: string, progressReportId: Option<string>)

  /**
   * `get_user_info` on `sys.argv`: the worker exits when the e-mail is
   * missing; the progress report id is optional.
   */
  function GetUserInfo(argv: seq<string>): (r: Option<UserInfo>)
    ensures r.None? <==> |argv| < 2
    ensures r.Some? ==> r.value.email == argv[1]
    ensures r.Some? ==> (r.value.progressReportId.Some? <==> |argv| > 2)
    ensures r.Some? && |argv| > 2 ==> r.value.progressReportId.value == argv[2]
  {
    if |argv| < 2 then None
    else Some(UserInfo(argv[1], if |argv| > 2 then Some(argv[2]) else None))
  }

  // ---------------------------------------------------------------------------
  // The label of one frame
  // ---------------------------------------------------------------------------

  datatype Lips = DryLips | NormalLips

  function LipsLabel(l: Lips): string
  {
    match l
    case DryLips => "Dry Lips"
    case NormalLips => "Normal Lips"
  }

  /** A mouth the cascade found inside a face. */
  datatype Mouth = Mouth(inUpperHalf: bool, normalizedTexture: real, drynessScore: real)

  /** What a frame contributes to a sample: its label and its normalised texture. */
  datatype Reading = Reading(lips: Lips, texture: real)

  /** `my < h / 2`: a detection around the nose, which the loop skips. */
  predicate Counts(m: Mouth)
  {
    !m.inUpperHalf
  }

  function Classify(m: Mouth): Lips
  {
    if m.drynessScore > DrynessThreshold then DryLips else NormalLips
  }

  /**
   * The nested loops over faces and mouths: every mouth that is not skipped
   * overwrites the label and the texture, so the last such mouth decides; a
   * frame without one reads as normal lips with texture 0.
   */
  function FrameReading(mouths: seq<Mouth>): Reading
    decreases |mouths|
  {
    if mouths == [] then Reading(NormalLips, 0.0)
    else
      var last := mouths[|mouths| - 1];
      if Counts(last) then Reading(Classify(last), last.normalizedTexture)
      else FrameReading(mouths[..|mouths| - 1])
  }

  /** Without a mouth below the nose the frame reads as normal lips with texture 0. */
  lemma {:induction false} NoMouthReadsNormal(mouths: seq<Mouth>)
    requires forall m :: m in mouths ==> !Counts(m)
    ensures FrameReading(mouths) == Reading(NormalLips, 0.0)
    decreases |mouths|
  {
    if mouths != [] {
      var prefix := mouths[..|mouths| - 1];
      assert forall m :: m in prefix ==> m in mouths;
      NoMouthReadsNormal(prefix);
    }
  }

  /** Otherwise the last mouth that is not skipped decides both the label and the texture. */
  lemma {:induction false} LastMouthDecides(mouths: seq<Mouth>, k: nat)
    requires k < |mouths| && Counts(mouths[k])
    requires forall j :: k < j < |mouths| ==> !Counts(mouths[j])
    ensures FrameReading(mouths) == Reading(Classify(mouths[k]), mouths[k].normalizedTexture)
    decreases |mouths|
  {
    if k < |mouths| - 1 {
      var prefix := mouths[..|mouths| - 1];
      assert prefix[k] == mouths[k];
      LastMouthDecides(prefix, k);
    }
  }

  // ---------------------------------------------------------------------------
  // Sampling
  // ---------------------------------------------------------------------------

  /** One pass of the main loop: the clock reading at its top and the frame it analysed. */
  datatype FrameAt = FrameAt(time: int, mouths: seq<Mouth>)

  /** One sample: the prediction saved to the database and appended to the batch. */
  datatype Sample = Sample(timestamp: int, lips: Lips, drynessScore: real)

  /**
   * The samples the main loop takes from a sequence of frames: the loop stops
   * at the first clock reading at least two minutes after `start`, and a frame
   * is sampled when at least a second has passed since the previous sample.
   */
  function SampleRun(start: int, lastSaved: int, frames: seq<FrameAt>): seq<Sample>
    decreases |frames|
  {
    if frames == [] || frames[0].time - start >= MonitoringDurationMs then []
    else if frames[0].time - lastSaved >= SaveIntervalMs then
      var reading := FrameReading(frames[0].mouths);
      [Sample(frames[0].time, reading.lips, reading.texture)] + SampleRun(start, frames[0].time, frames[1..])
    else SampleRun(start, lastSaved, frames[1..])
  }

  function Labels(samples: seq<Sample>): (r: seq<Lips>)
    ensures |r| == |samples|
    ensures forall k :: 0 <= k < |r| ==> r[k] == samples[k].lips
  {
    if samples == [] then [] else [samples[0].lips] + Labels(samples[1..])
  }

  /**
   * Every sample lies inside the two-minute window and at least a second
   * after the sample before it (or after `lastSaved` for the first one).
   */
  lemma {:induction false} SamplesSpaced(start: int, lastSaved: int, frames: seq<FrameAt>)
    ensures var r := SampleRun(start, lastSaved, frames);
      forall k :: 0 <= k < |r| ==> r[k].timestamp - start < MonitoringDurationMs
    ensures var r := SampleRun(start, lastSaved, frames);
      |r| > 0 ==> r[0].timestamp - lastSaved >= SaveIntervalMs
    ensures var r := SampleRun(start, lastSaved, frames);
      forall k :: 0 < k < |r| ==> r[k].timestamp - r[k - 1].timestamp >= SaveIntervalMs
    decreases |frames|
  {
    var r := SampleRun(start, lastSaved, frames);
    if frames != [] && frames[0].time - start < MonitoringDurationMs {
      if frames[0].time - lastSaved >= SaveIntervalMs {
        var t := frames[0].time;
        SamplesSpaced(start, t, frames[1..]);
        var rest := SampleRun(start, t, frames[1..]);
        assert r == [r[0]] + rest;
        forall k | 0 < k < |r|
          ensures r[k].timestamp - start < MonitoringDurationMs
          ensures r[k].timestamp - r[k - 1].timestamp >= SaveIntervalMs
        {
          assert r[k] == rest[k - 1];
          if k > 1 {
            assert r[k - 1] == rest[k - 2];
          }
        }
      } else {
        SamplesSpaced(start, lastSaved, frames[1..]);
      }
    }
  }

  /** The k-th sample is taken at least k + 1 seconds (`SaveIntervalMs`) after `lastSaved`. */
  lemma {:induction false} SampleTimesGrow(start: int, lastSaved: int, frames: seq<FrameAt>)
    ensures forall k :: 0 <= k < |SampleRun(start, lastSaved, frames)| ==>
      SampleRun(start, lastSaved, frames)[k].timestamp >= lastSaved + 1000 * (k + 1)
    decreases |frames|
  {
    var r := SampleRun(start, lastSaved, frames);
    if frames != [] && frames[0].time - start < MonitoringDurationMs {
      if frames[0].time - lastSaved >= SaveIntervalMs {
        var t := frames[0].time;
        SampleTimesGrow(start, t, frames[1..]);
        var rest := SampleRun(start, t, frames[1..]);
        assert r == [r[0]] + rest;
        forall k | 1 <= k < |r|
          ensures r[k].timestamp >= lastSaved + 1000 * (k + 1)
        {
          assert r[k] == rest[k - 1];
        }
      } else {
        SampleTimesGrow(start, lastSaved, frames[1..]);
        assert r == SampleRun(start, lastSaved, frames[1..]);
      }
    }
  }

  /** A run that starts saving from its own start takes at most 119 samples. */
  lemma AtMostOneSamplePerSecond(start: int, frames: seq<FrameAt>)
    ensures |SampleRun(start, start, frames)| < MonitoringDurationMs / SaveIntervalMs
  {
    var r := SampleRun(start, start, frames);
    if r != [] {
      SamplesSpaced(start, start, frames);
      SampleTimesGrow(start, start, frames);
      var k := |r| - 1;
      assert r[k].timestamp >= start + 1000 * (k + 1);
      assert r[k].timestamp - start < MonitoringDurationMs;
    }
  }

  /**
   * The main loop of the worker over the frames it receives: it returns the
   * samples it saved, the batch of labels and the pass at which it stopped
   * (`|frames|` when the frames ran out before the two minutes did).
   */
  method CollectSamples(start: int, frames: seq<FrameAt>) returns (saved: seq<Sample>, batch: seq<Lips>, stoppedAt: nat)
    ensures saved == SampleRun(start, start, frames)
    ensures batch == Labels(saved)
    ensures stoppedAt <= |frames|
    ensures stoppedAt < |frames| ==> frames[stoppedAt].time - start >= MonitoringDurationMs
    ensures forall j :: 0 <= j < stoppedAt ==> frames[j].time - start < MonitoringDurationMs
  {
    var lastSaved := start;
    saved, batch := [], [];
    var i: nat := 0;
    while i < |frames|
      invariant i <= |frames|
      invariant saved + SampleRun(start, lastSaved, frames[i..]) == SampleRun(start, start, frames)
      invariant batch == Labels(saved)
      invariant forall j :: 0 <= j < i ==> frames[j].time - start < MonitoringDurationMs
    {
      var now := frames[i].time;
      if now - start >= MonitoringDurationMs {
        break;
      }
      assert frames[i..][1..] == frames[i + 1..];
      if now - lastSaved >= SaveIntervalMs {
        var reading := FrameReading(frames[i].mouths);
        var sample := Sample(now, reading.lips, reading.texture);
        assert Labels(saved + [sample]) == Labels(saved) + [sample.lips];
        saved := saved + [sample];
        batch := batch + [reading.lips];
        lastSaved := now;
      }
      i := i + 1;
    }
    stoppedAt := i;
  }

  // ---------------------------------------------------------------------------
  // Summary and alert
  // ---------------------------------------------------------------------------

  function Count(batch: seq<Lips>, l: Lips): (n: nat)
    ensures n <= |batch|
  {
    if batch == [] then 0 else (if batch[0] == l then 1 else 0) + Count(batch[1..], l)
  }

  /** `sum([1.0 if label == "Dry Lips" else 0.0 for label in batch])`. */
  function DrySum(batch: seq<Lips>): real
  {
    if batch == [] then 0.0 else (if batch[0] == DryLips then 1.0 else 0.0) + DrySum(batch[1..])
  }

  datatype Summary = Summary(dryCount: nat, normalCount: nat, dryPercentage: real, normalPercentage: real,
                             avgDrynessScore: real, totalSamples: nat, timestamp: int)

  /** The summary saved at the end of a run, for a non-empty batch only. */
  function Summarize(batch: seq<Lips>, now: int): Option<Summary>
  {
    if batch == [] then None
    else
      var total := |batch|;
      var dry := Count(batch, DryLips);
      var normal := Count(batch, NormalLips);
      Some(Summary(dry, normal, (dry as real / total as real) * 100.0, (normal as real / total as real) * 100.0,
                   DrySum(batch) / total as real, total, now))
  }

  /** `dry_percentage > 60`. */
  predicate AlertNeeded(s: Summary)
  {
    s.dryPercentage > AlertPercentage
  }

  lemma {:induction false} CountsPartition(batch: seq<Lips>)
    ensures Count(batch, DryLips) + Count(batch, NormalLips) == |batch|
  {
    if batch != [] {
      CountsPartition(batch[1..]);
    }
  }

  lemma {:induction false} DrySumCounts(batch: seq<Lips>)
    ensures DrySum(batch) == Count(batch, DryLips) as real
  {
    if batch != [] {
      DrySumCounts(batch[1..]);
    }
  }

  lemma PercentagesAddUp(d: real, n: real, t: real)
    requires t > 0.0
    ensures (d / t) * 100.0 + (n / t) * 100.0 == ((d + n) / t) * 100.0
  {
  }

  lemma {:induction false} FractionTimesTotal(d: real, t: real)
    requires t > 0.0
    ensures (d / t) * t == d
  {
  }

  lemma ThresholdScaled(d: real, t: real)
    requires t > 0.0
    ensures (d / t) * 100.0 > 60.0 <==> 5.0 * d > 3.0 * t
  {
    var x := d / t;
    FractionTimesTotal(d, t);
    assert x * t == d;
    assert (x * 100.0 > 60.0) == (x * t * 100.0 > 60.0 * t);
  }

  /**
   * A summary exists exactly for a non-empty batch; its two counts add up to
   * the number of samples, the average dryness score is the fraction of dry
   * samples, and the two percentages add up to 100.
   */
  lemma SummaryConsistent(batch: seq<Lips>, now: int)
    ensures Summarize(batch, now).Some? <==> batch != []
    ensures batch != [] ==>
      var s := Summarize(batch, now).value;
      && s.totalSamples == |batch|
      && s.dryCount + s.normalCount == s.totalSamples
      && s.avgDrynessScore * s.totalSamples as real == s.dryCount as real
      && s.dryPercentage + s.normalPercentage == 100.0
  {
    if batch != [] {
      CountsPartition(batch);
      DrySumCounts(batch);
      ShareArithmetic(Count(batch, DryLips), Count(batch, NormalLips), |batch|);
    }
  }

  /** The ratios of a summary: the mean of the dry flags, and the two shares that make up the whole. */
  lemma ShareArithmetic(dry: nat, normal: nat, total: nat)
    requires total > 0 && dry + normal == total
    ensures (dry as real / total as real) * total as real == dry as real
    ensures (dry as real / total as real) * 100.0 + (normal as real / total as real) * 100.0 == 100.0
  {
    var t := total as real;
    FractionTimesTotal(dry as real, t);
    PercentagesAddUp(dry as real, normal as real, t);
    assert dry as real + normal as real == t;
    assert t / t == 1.0;
  }

  /** The alert is saved exactly when more than three fifths of the samples read as dry lips. */
  lemma AlertIffMostlyDry(batch: seq<Lips>, now: int)
    requires batch != []
    ensures AlertNeeded(Summarize(batch, now).value) <==> 5 * Count(batch, DryLips) > 3 * |batch|
  {
    ThresholdScaled(Count(batch, DryLips) as real, |batch| as real);
  }

  /** The whole end of a run: the summary, and the alert when one is due. */
  datatype RunResult = RunResult(summary: Option<Summary>, alert: bool)

  function FinishRun(batch: seq<Lips>, now: int): (r: RunResult)
    ensures r.summary.None? ==> !r.alert
  {
    match Summarize(batch, now)
    case None => RunResult(None, false)
    case Some(s) => RunResult(Some(s), AlertNeeded(s))
  }

  /**
   * The end of a run as written. For a non-empty batch it calls
   * `save_monitoring_summary`, which `DatabaseManager` does not define; the
   * `AttributeError` ends the run in the generic handler, before the summary
   * or the alert is saved. An empty batch saves nothing either.
   */
  function FinishRunAsWritten(batch: seq<Lips>, now: int): RunResult
  {
    RunResult(None, false)
  }

  /**
   * As written, a run whose every sample read as dry lips saves neither its
   * summary nor the alert the summary calls for.
   */
  lemma DehydrationAlertLostAsWritten(now: int)
    ensures FinishRun([DryLips], now).summary.Some? && FinishRun([DryLips], now).alert
    ensures FinishRunAsWritten([DryLips], now) == RunResult(None, false)
  {
    AlertIffMostlyDry([DryLips], now);
  }

  /** Sampling, then the summary: the alert is raised iff the run sampled mostly dry lips. */
  lemma RunAlertsOnMostlyDry(start: int, frames: seq<FrameAt>, now: int)
    ensures var batch := Labels(SampleRun(start, start, frames));
      FinishRun(batch, now).alert <==> batch != [] && 5 * Count(batch, DryLips) > 3 * |batch|
  {
    var batch := Labels(SampleRun(start, start, frames));
    if batch != [] {
      AlertIffMostlyDry(batch, now);
    }
  }
}

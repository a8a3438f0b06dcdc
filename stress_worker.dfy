/**
 * The bookkeeping of the stress worker (`modelScrpits/stress_detection.py`):
 * its command line, the emotion labels and their stress values, and the
 * sampling of one emotion per second into a batch that is written to the
 * database once a minute.
 *
 * The face detector and the emotion model are abstracted: the worker sees a
 * sequence of face events, one per face found in a frame, each with the clock
 * reading (milliseconds) taken for that face and the predicted emotion. The
 * frames themselves come off the buffered reader of `FrameReceive`.
 */
module StressWorker {
  import opened Common

  /** `save_interval`, 1 s, in milliseconds. */
  const SaveIntervalMs: int := 1000
  /** `batch_interval`, 60 s, in milliseconds. */
  const BatchIntervalMs: int := 60000

  // ---------------------------------------------------------------------------
  // Command line
  // ---------------------------------------------------------------------------

  datatype StressArgs =
    | MissingEmail                                 // `sys.exit(1)`
    | MissingReportId                              // `sys.argv[2]` raises IndexError
    | StressArgs(email: string, progressReportId: Option<string>)

  /** The command line as written: it checks for two entries but always reads three. */
  function StressArgsAsWritten(argv: seq<string>): (r: StressArgs)
    ensures r.StressArgs? ==> |argv| >= 3 && r.email == argv[1] && r.progressReportId == Some(argv[2])
  {
    if |argv| < 2 then MissingEmail
    else if |argv| < 3 then MissingReportId
    else StressArgs(argv[1], Some(argv[2]))
  }

  /**
   * `ScriptManager` leaves the report id off the command line when it has
   * none; the worker as written then dies before it connects.
   */
  lemma StressWorkerDiesWithoutReportId()
    ensures StressArgsAsWritten(["stress_detection.py", "user-1"]) == MissingReportId
  {
  }

  /** The command line with the report id optional, as the hydration worker reads it. */
  function StressArgsOf(argv: seq<string>): (r: StressArgs)
    ensures r.MissingEmail? <==> |argv| < 2
    ensures !r.MissingReportId?
    ensures r.StressArgs? ==> r.email == argv[1] && (r.progressReportId.Some? <==> |argv| >= 3)
    ensures r.StressArgs? && |argv| >= 3 ==> r.progressReportId.value == argv[2]
  {
    if |argv| < 2 then MissingEmail
    else StressArgs(argv[1], if |argv| >= 3 then Some(argv[2]) else None)
  }

  /** Wherever the worker as written starts, the corrected reading starts it with the same arguments. */
  lemma StressArgsAgreeWhenComplete(argv: seq<string>)
    ensures StressArgsAsWritten(argv).StressArgs? ==> StressArgsOf(argv) == StressArgsAsWritten(argv)
    ensures StressArgsAsWritten(argv).MissingEmail? <==> StressArgsOf(argv).MissingEmail?
  {
  }

  // ---------------------------------------------------------------------------
  // Emotions and stress values
  // ---------------------------------------------------------------------------

  datatype Emotion = Angry | Disgust | Fear | Happy | Neutral | Sad | Surprise

  /** `labels_dict`; an index outside it raises KeyError. */
  function EmotionOf(index: nat): (e: Option<Emotion>)
    ensures e.Some? <==> index < 7
  {
    if index == 0 then Some(Angry)
    else if index == 1 then Some(Disgust)
    else if index == 2 then Some(Fear)
    else if index == 3 then Some(Happy)
    else if index == 4 then Some(Neutral)
    else if index == 5 then Some(Sad)
    else if index == 6 then Some(Surprise)
    else None
  }

  function IndexOf(e: Emotion): nat
  {
    match e
    case Angry => 0
    case Disgust => 1
    case Fear => 2
    case Happy => 3
    case Neutral => 4
    case Sad => 5
    case Surprise => 6
  }

  function EmotionName(e: Emotion): string
  {
    match e
    case Angry => "Angry"
    case Disgust => "Disgust"
    case Fear => "Fear"
    case Happy => "Happy"
    case Neutral => "Neutral"
    case Sad => "Sad"
    case Surprise => "Surprise"
  }

  /** The seven labels are the classes 0 to 6, each named once. */
  lemma LabelsAreAllClasses(e: Emotion, f: Emotion, index: nat)
    ensures EmotionOf(IndexOf(e)) == Some(e)
    ensures EmotionOf(index).Some? ==> IndexOf(EmotionOf(index).value) == index
    ensures EmotionName(e) == EmotionName(f) ==> e == f
  {
  }

  /** The if-chain of the flush, on the emotion's name. */
  function StressValueOfName(name: string): real
  {
    if name in ["Angry", "Fear", "Sad"] then 0.8
    else if name == "Disgust" then 0.6
    else if name == "Surprise" then 0.4
    else 0.2
  }

  /** The stress level of an emotion, by kind. */
  function StressLevel(e: Emotion): (v: real)
    ensures v in {0.2, 0.4, 0.6, 0.8}
  {
    match e
    case Angry | Fear | Sad => 0.8
    case Disgust => 0.6
    case Surprise => 0.4
    case Happy | Neutral => 0.2
  }

  /** The name-based chain gives every emotion its level; anger, fear and sadness are the most stressful. */
  lemma StressValueMatchesLevel(e: Emotion)
    ensures StressValueOfName(EmotionName(e)) == StressLevel(e)
    ensures StressLevel(e) == 0.8 <==> e in {Angry, Fear, Sad}
    ensures StressLevel(e) == 0.2 <==> e in {Happy, Neutral}
  {
  }

  // ---------------------------------------------------------------------------
  // Batching
  // ---------------------------------------------------------------------------

  /** One face found in a frame: the clock reading taken for it and its predicted emotion. */
  datatype FaceEvent = FaceEvent(time: int, emotion: Emotion)

  /** `last_saved_time`, `last_batch_time` and `current_batch`. */
  datatype Batcher = Batcher(lastSaved: int, lastBatch: int, batch: seq<Emotion>)

  /**
   * One `save_prediction('stress', {'stress_level': v}, timestamp)` call. The
   * timestamp is the face's clock reading in milliseconds here; the worker
   * passes `time.time()`, in seconds (see `Database.SecondStampsNeverRecent`).
   */
  datatype StressRecord = StressRecord(stressLevel: real, timestamp: int)

  function Flush(batch: seq<Emotion>, timestamp: int): (rs: seq<StressRecord>)
    ensures |rs| == |batch|
  {
    if batch == [] then [] else [StressRecord(StressValueOfName(EmotionName(batch[0])), timestamp)] + Flush(batch[1..], timestamp)
  }

  /**
   * The body of the loop over a frame's faces: the emotion joins the batch
   * when a second has passed since the last one did; at the minute boundary a
   * non-empty batch is written out in order with one timestamp and emptied,
   * and the boundary moves on whether or not anything was written.
   */
  function FaceStep(b: Batcher, f: FaceEvent): (Batcher, seq<StressRecord>)
  {
    CloseMinute(Take(b, f), f.time)
  }

  /** The emotion joins the batch when a second has passed since the last one did. */
  function Take(b: Batcher, f: FaceEvent): Batcher
  {
    if f.time - b.lastSaved >= SaveIntervalMs then b.(batch := b.batch + [f.emotion], lastSaved := f.time) else b
  }

  /** At the minute boundary the batch is written out and emptied and the boundary moves on. */
  function CloseMinute(b: Batcher, now: int): (Batcher, seq<StressRecord>)
  {
    if now - b.lastBatch >= BatchIntervalMs then (b.(batch := [], lastBatch := now), Flush(b.batch, now))
    else (b, [])
  }

  function Run(b: Batcher, faces: seq<FaceEvent>): (Batcher, seq<StressRecord>)
    decreases |faces|
  {
    if faces == [] then (b, [])
    else
      var step := FaceStep(b, faces[0]);
      var rest := Run(step.0, faces[1..]);
      (rest.0, step.1 + rest.1)
  }

  /** The emotions the faces add to the batch. */
  function Appended(b: Batcher, faces: seq<FaceEvent>): seq<Emotion>
    decreases |faces|
  {
    if faces == [] then []
    else
      Taken(b, faces[0]) + Appended(FaceStep(b, faces[0]).0, faces[1..])
  }

  function Levels(es: seq<Emotion>): (vs: seq<real>)
    ensures |vs| == |es|
  {
    if es == [] then [] else [StressLevel(es[0])] + Levels(es[1..])
  }

  function RecordLevels(rs: seq<StressRecord>): (vs: seq<real>)
    ensures |vs| == |rs|
  {
    if rs == [] then [] else [rs[0].stressLevel] + RecordLevels(rs[1..])
  }

  lemma {:induction false} LevelsAppend(a: seq<Emotion>, b: seq<Emotion>)
    ensures Levels(a + b) == Levels(a) + Levels(b)
  {
    if a != [] {
      assert (a + b)[0] == a[0];
      assert (a + b)[1..] == a[1..] + b;
      LevelsAppend(a[1..], b);
      calc {
        Levels(a + b);
        [StressLevel(a[0])] + Levels(a[1..] + b);
        [StressLevel(a[0])] + (Levels(a[1..]) + Levels(b));
        ([StressLevel(a[0])] + Levels(a[1..])) + Levels(b);
        Levels(a) + Levels(b);
      }
    } else {
      assert a + b == b;
    }
  }

  lemma {:induction false} RecordLevelsAppend(a: seq<StressRecord>, b: seq<StressRecord>)
    ensures RecordLevels(a + b) == RecordLevels(a) + RecordLevels(b)
  {
    if a != [] {
      assert (a + b)[0] == a[0];
      assert (a + b)[1..] == a[1..] + b;
      RecordLevelsAppend(a[1..], b);
      calc {
        RecordLevels(a + b);
        [a[0].stressLevel] + RecordLevels(a[1..] + b);
        [a[0].stressLevel] + (RecordLevels(a[1..]) + RecordLevels(b));
        ([a[0].stressLevel] + RecordLevels(a[1..])) + RecordLevels(b);
        RecordLevels(a) + RecordLevels(b);
      }
    } else {
      assert a + b == b;
    }
  }

  lemma {:induction false} FlushLevels(batch: seq<Emotion>, timestamp: int)
    ensures RecordLevels(Flush(batch, timestamp)) == Levels(batch)
  {
    if batch != [] {
      StressValueMatchesLevel(batch[0]);
      FlushLevels(batch[1..], timestamp);
    }
  }

  lemma AppendAssoc<T>(a: seq<T>, b: seq<T>, c: seq<T>)
    ensures (a + b) + c == a + (b + c)
  {
  }

  /** What one face takes into the batch. */
  function Taken(b: Batcher, f: FaceEvent): seq<Emotion>
  {
    if f.time - b.lastSaved >= SaveIntervalMs then [f.emotion] else []
  }

  lemma StepConservation(b: Batcher, f: FaceEvent)
    ensures RecordLevels(FaceStep(b, f).1) + Levels(FaceStep(b, f).0.batch) == Levels(b.batch + Taken(b, f))
  {
    var mid := Take(b, f);
    assert mid.batch == b.batch + Taken(b, f);
    if f.time - mid.lastBatch >= BatchIntervalMs {
      FlushLevels(mid.batch, f.time);
      assert Levels(FaceStep(b, f).0.batch) == [];
    } else {
      assert RecordLevels(FaceStep(b, f).1) == [];
    }
  }

  /**
   * Nothing sampled is lost or written twice: the levels written so far,
   * followed by the levels of what is still batched, are the levels of what
   * was batched at the start followed by every emotion sampled since, in order.
   */
  lemma {:induction false} BatchConservation(b: Batcher, faces: seq<FaceEvent>)
    ensures RecordLevels(Run(b, faces).1) + Levels(Run(b, faces).0.batch) == Levels(b.batch + Appended(b, faces))
    decreases |faces|
  {
    if faces == [] {
      assert b.batch + [] == b.batch;
    } else {
      var f := faces[0];
      var step := FaceStep(b, f);
      var rest := Run(step.0, faces[1..]);
      var more := Appended(step.0, faces[1..]);
      assert Appended(b, faces) == Taken(b, f) + more;
      BatchConservation(step.0, faces[1..]);
      StepConservation(b, f);
      RecordLevelsAppend(step.1, rest.1);
      LevelsAppend(step.0.batch, more);
      LevelsAppend(b.batch + Taken(b, f), more);
      assert Run(b, faces) == (rest.0, step.1 + rest.1);
      var r1, r2 := RecordLevels(step.1), RecordLevels(rest.1);
      var l1, l2, lm := Levels(step.0.batch), Levels(rest.0.batch), Levels(more);
      var head := b.batch + Taken(b, f);
      assert r2 + l2 == Levels(step.0.batch + more) == l1 + lm;
      assert r1 + l1 == Levels(head);
      assert Levels(head + more) == Levels(head) + lm;
      AppendAssoc(r1, r2, l2);
      AppendAssoc(r1, l1, lm);
      AppendAssoc(b.batch, Taken(b, f), more);
      assert RecordLevels(Run(b, faces).1) == r1 + r2;
      assert Levels(Run(b, faces).0.batch) == l2;
      assert Levels(b.batch + Appended(b, faces)) == Levels(head + more);
    }
  }

  lemma {:induction false} FlushStamps(batch: seq<Emotion>, timestamp: int)
    ensures forall k :: 0 <= k < |batch| ==> Flush(batch, timestamp)[k].timestamp == timestamp
  {
    if batch != [] {
      FlushStamps(batch[1..], timestamp);
      var rs := Flush(batch, timestamp);
      assert forall k :: 1 <= k < |batch| ==> rs[k] == Flush(batch[1..], timestamp)[k - 1];
    }
  }

  /**
   * A face writes records only when it closes a minute; they all carry its
   * time, and the batch is then empty and the next minute starts at that time.
   */
  lemma FlushSharesTimestamp(b: Batcher, f: FaceEvent)
    ensures var out := FaceStep(b, f).1;
      forall k :: 0 <= k < |out| ==> out[k].timestamp == f.time
    ensures FaceStep(b, f).1 != [] ==> FaceStep(b, f).0 == Batcher(FaceStep(b, f).0.lastSaved, f.time, [])
  {
    FlushStamps(Take(b, f).batch, f.time);
  }

  /** The loop `for emotion in current_batch: save_prediction(...)`. */
  method WriteBatch(batch: seq<Emotion>, timestamp: int) returns (written: seq<StressRecord>)
    ensures written == Flush(batch, timestamp)
  {
    written := [];
    for k := 0 to |batch|
      invariant written + Flush(batch[k..], timestamp) == Flush(batch, timestamp)
    {
      assert batch[k..][1..] == batch[k + 1..];
      written := written + [StressRecord(StressValueOfName(EmotionName(batch[k])), timestamp)];
    }
    assert batch[|batch|..] == [];
  }

  /** The body of the loop over a frame's faces. */
  method StepFace(b: Batcher, f: FaceEvent) returns (next: Batcher, out: seq<StressRecord>)
    ensures (next, out) == FaceStep(b, f)
  {
    var lastSaved, lastBatch, batch := b.lastSaved, b.lastBatch, b.batch;
    if f.time - lastSaved >= SaveIntervalMs {
      batch := batch + [f.emotion];
      lastSaved := f.time;
    }
    assert Batcher(lastSaved, lastBatch, batch) == Take(b, f);
    out := [];
    if f.time - lastBatch >= BatchIntervalMs {
      if batch != [] {
        out := WriteBatch(batch, f.time);
        batch := [];
      }
      lastBatch := f.time;
    }
    next := Batcher(lastSaved, lastBatch, batch);
  }

  /**
   * The main loop's bookkeeping over the faces it sees: the batcher it ends
   * with and the records it writes.
   */
  method ProcessFaces(start: Batcher, faces: seq<FaceEvent>) returns (b: Batcher, written: seq<StressRecord>)
    ensures (b, written) == Run(start, faces)
  {
    b := start;
    written := [];
    for i := 0 to |faces|
      invariant Run(b, faces[i..]).0 == Run(start, faces).0
      invariant written + Run(b, faces[i..]).1 == Run(start, faces).1
    {
      assert faces[i..][1..] == faces[i + 1..];
      var out;
      b, out := StepFace(b, faces[i]);
      AppendAssoc(written, out, Run(b, faces[i + 1..]).1);
      written := written + out;
    }
    assert faces[|faces|..] == [];
    assert written + [] == written;
  }
}

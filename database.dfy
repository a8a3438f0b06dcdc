/**
 * `DatabaseManager` (`backend/utils/database.py`): the records the workers
 * save under `predictions/{user}/{model}/{key}`, `alerts/{user}/{key}` and
 * `user_status/{user}`, and the time-window queries over them. The source binds
 * the manager to the Firebase realtime database; here it runs over the tree of
 * `MockFirebase` instead.
 *
 * The clock is a parameter: `nowMs` is `time.time()` in milliseconds and
 * `isoNow` is `datetime.now().isoformat()`. `key` is the key `push()` makes up.
 */
module Database {
  import opened Common
  import opened MockFirebase
  import StressWorker

  // ---------------------------------------------------------------------------
  // Writes through references
  // ---------------------------------------------------------------------------

  /** The components of a path as `_get_path_parts` splits it: never none. */
  type Parts = ps: seq<string> | ps != [] witness [""]

  function At(path: string): Parts
  {
    PathParts(path)
  }

  /** One write through a reference, at the components of its path: creating it, `set` or `update`. */
  datatype Write = EnsureW(parts: Parts) | SetW(parts: Parts, v: Value) | UpdateW(parts: Parts, v: Value)

  function Apply(root: Value, w: Write): Res<Value>
  {
    match w
    case EnsureW(p) => EnsureAt(root, p)
    case SetW(p, v) => SetAt(root, p, v)
    case UpdateW(p, v) => UpdateAt(root, p, v)
  }

  /** The tree after a run of writes, and the exception that cut it short, if one did. */
  datatype Outcome = Outcome(root: Value, raised: Option<string>)

  /** The writes in order; the first that raises ends the run, the earlier ones stay done. */
  function ApplyAll(root: Value, ws: seq<Write>): Outcome
    decreases |ws|
  {
    if ws == [] then Outcome(root, None)
    else
      var r := Apply(root, ws[0]);
      if r.Raised? then Outcome(root, Some(r.error)) else ApplyAll(r.value, ws[1..])
  }

  lemma ApplyKeeps(root: Value, w: Write, q: seq<string>)
    requires Apply(root, w).Ok? && Diverge(w.parts, q)
    ensures GetAt(Apply(root, w).value, q) == GetAt(root, q)
  {
    match w
    case EnsureW(p) => EnsureKeepsOthers(root, p, q);
    case SetW(p, v) => SetKeepsOthers(root, p, v, q);
    case UpdateW(p, v) => UpdateMerges(root, p, v, "", q);
  }

  /** Writes to paths that part ways with `q` leave what `get` reads at `q`. */
  lemma {:induction false} ApplyAllKeeps(root: Value, ws: seq<Write>, q: seq<string>)
    requires forall i :: 0 <= i < |ws| ==> Diverge(ws[i].parts, q)
    ensures GetAt(ApplyAll(root, ws).root, q) == GetAt(root, q)
    decreases |ws|
  {
    if ws != [] {
      var r := Apply(root, ws[0]);
      if r.Ok? {
        assert Diverge(ws[0].parts, q);
        ApplyKeeps(root, ws[0], q);
        assert forall i :: 0 <= i < |ws[1..]| ==> ws[1..][i] == ws[i + 1];
        ApplyAllKeeps(r.value, ws[1..], q);
        assert ApplyAll(root, ws) == ApplyAll(r.value, ws[1..]);
      }
    }
  }

  /** Writes that all stay under the top-level key `head` leave every other top-level key alone. */
  lemma ApplyAllOutside(root: Value, ws: seq<Write>, head: string, q: seq<string>)
    requires forall i :: 0 <= i < |ws| ==> ws[i].parts != [] && ws[i].parts[0] == head
    requires q != [] && q[0] != head
    ensures GetAt(ApplyAll(root, ws).root, q) == GetAt(root, q)
  {
    assert forall i :: 0 <= i < |ws| ==> Diverge(ws[i].parts, q);
    ApplyAllKeeps(root, ws, q);
  }

  lemma ApplyOutside2(root: Value, w0: Write, w1: Write, head: string, q: seq<string>)
    requires w0.parts != [] && w0.parts[0] == head && w1.parts != [] && w1.parts[0] == head
    requires q != [] && q[0] != head
    ensures GetAt(ApplyAll(root, [w0, w1]).root, q) == GetAt(root, q)
  {
    ApplyAllOutside(root, [w0, w1], head, q);
  }

  lemma ApplyOutside3(root: Value, w0: Write, w1: Write, w2: Write, head: string, q: seq<string>)
    requires w0.parts != [] && w0.parts[0] == head && w1.parts != [] && w1.parts[0] == head
    requires w2.parts != [] && w2.parts[0] == head
    requires q != [] && q[0] != head
    ensures GetAt(ApplyAll(root, [w0, w1, w2]).root, q) == GetAt(root, q)
  {
    ApplyAllOutside(root, [w0, w1, w2], head, q);
  }

  lemma {:induction false} ApplyAllAppend(root: Value, a: seq<Write>, b: seq<Write>)
    ensures ApplyAll(root, a + b) ==
      var o := ApplyAll(root, a); if o.raised.Some? then o else ApplyAll(o.root, b)
    decreases |a|
  {
    if a == [] {
      assert a + b == b;
    } else {
      assert (a + b)[0] == a[0] && (a + b)[1..] == a[1..] + b;
      var r := Apply(root, a[0]);
      if r.Ok? {
        ApplyAllAppend(r.value, a[1..], b);
      }
    }
  }

  /**
   * After a run that did not raise, a path reads the value last set there
   * when no later write touches a path related to it.
   */
  lemma LastWriteWins(root: Value, ws: seq<Write>, i: nat, n: Value)
    requires i < |ws| && ws[i].SetW?
    requires ApplyAll(root, ws) == Outcome(n, None)
    requires forall j :: i < j < |ws| ==> Diverge(ws[j].parts, ws[i].parts)
    ensures GetAt(n, ws[i].parts) == Ok(ws[i].v)
  {
    var p, v := ws[i].parts, ws[i].v;
    var pre, post := ws[..i], ws[i + 1..];
    assert ws == pre + [SetW(p, v)] + post;
    ApplyAllAppend(root, pre + [SetW(p, v)], post);
    ApplyAllAppend(root, pre, [SetW(p, v)]);
    var o := ApplyAll(root, pre);
    var s := SetAt(o.root, p, v);
    assert [SetW(p, v)][1..] == [];
    GetAfterSet(o.root, p, v);
    assert forall j :: 0 <= j < |post| ==> post[j] == ws[i + 1 + j];
    ApplyAllKeeps(s.value, post, p);
  }

  // ---------------------------------------------------------------------------
  // Paths of one user
  // ---------------------------------------------------------------------------

  /** `f'predictions/{user_id}'` and the other two per-user references. */
  function PredictionsPath(user: string): string { "predictions" + "/" + user }
  function AlertsPath(user: string): string { "alerts" + "/" + user }
  function StatusPath(user: string): string { "user_status" + "/" + user }

  lemma Path2(a: string, b: string)
    requires Segment(a) && Segment(b)
    ensures PathParts(a + "/" + b) == [a, b]
  {
    JoinSnoc([a], b);
    assert [a] + [b] == [a, b];
    JoinedPath([a, b]);
  }

  lemma Path3(a: string, b: string, c: string)
    requires Segment(a) && Segment(b) && Segment(c)
    ensures PathParts(a + "/" + b + "/" + c) == [a, b, c]
  {
    JoinSnoc([a], b);
    assert [a] + [b] == [a, b];
    JoinSnoc([a, b], c);
    assert [a, b] + [c] == [a, b, c];
    JoinedPath([a, b, c]);
  }

  lemma Path4(a: string, b: string, c: string, d: string)
    requires Segment(a) && Segment(b) && Segment(c) && Segment(d)
    ensures PathParts(a + "/" + b + "/" + c + "/" + d) == [a, b, c, d]
  {
    JoinSnoc([a], b);
    assert [a] + [b] == [a, b];
    JoinSnoc([a, b], c);
    assert [a, b] + [c] == [a, b, c];
    JoinSnoc([a, b, c], d);
    assert [a, b, c] + [d] == [a, b, c, d];
    JoinedPath([a, b, c, d]);
  }

  lemma HeadOfPath3(a: string, b: string, c: string)
    requires Segment(a) && Segment(b) && Segment(c)
    ensures At(a + "/" + b + "/" + c) != [] && At(a + "/" + b + "/" + c)[0] == a
  {
    Path3(a, b, c);
  }

  lemma HeadOfPath4(a: string, b: string, c: string, d: string)
    requires Segment(a) && Segment(b) && Segment(c) && Segment(d)
    ensures At(a + "/" + b + "/" + c + "/" + d) != [] && At(a + "/" + b + "/" + c + "/" + d)[0] == a
  {
    Path4(a, b, c, d);
  }

  /** The fixed components of the paths the manager writes. */
  lemma FixedSegments()
    ensures Segment("predictions") && Segment("alerts") && Segment("user_status")
    ensures Segment("latest_predictions") && Segment("latest_alert")
  {
    assert forall i :: 0 <= i < |"predictions"| ==> "predictions"[i] != '/';
    assert forall i :: 0 <= i < |"alerts"| ==> "alerts"[i] != '/';
    assert forall i :: 0 <= i < |"user_status"| ==> "user_status"[i] != '/';
    assert forall i :: 0 <= i < |"latest_predictions"| ==> "latest_predictions"[i] != '/';
    assert forall i :: 0 <= i < |"latest_alert"| ==> "latest_alert"[i] != '/';
  }

  /** `__init__`: the three references, created in this order. */
  function OpenWrites(user: string): seq<Write>
  {
    [EnsureW(At(PredictionsPath(user))), EnsureW(At(AlertsPath(user))), EnsureW(At(StatusPath(user)))]
  }

  // ---------------------------------------------------------------------------
  // Records
  // ---------------------------------------------------------------------------

  /** `timestamp=None` stands for the current time in milliseconds. */
  function StampOr(timestamp: Option<Value>, nowMs: int): Value
  {
    if timestamp.Some? then timestamp.value else Int(nowMs)
  }

  /** The record `save_prediction` pushes. */
  function PredictionRecord(model: string, prediction: Value, timestamp: Value, isoNow: string): Value
  {
    Dict([Entry("model", Str(model)), Entry("prediction", prediction), Entry("timestamp", timestamp),
          Entry("created_at", Str(isoNow))])
  }

  /** The record `update_latest_prediction` stores. */
  function LatestRecord(model: string, prediction: Value, timestamp: Value, isoNow: string): Value
  {
    Dict([Entry("model", Str(model)), Entry("prediction", prediction), Entry("timestamp", timestamp),
          Entry("updated_at", Str(isoNow))])
  }

  /** `update_latest_prediction`: the two children of the status node and `set`. */
  function LatestPredictionWrites(user: string, model: string, prediction: Value, stamp: Value, isoNow: string): seq<Write>
  {
    var latestPath := StatusPath(user) + "/" + "latest_predictions";
    [EnsureW(At(latestPath)), EnsureW(At(latestPath + "/" + model)),
     SetW(At(latestPath + "/" + model), LatestRecord(model, prediction, stamp, isoNow))]
  }

  /**
   * `save_prediction`: the model reference, `push()`, the child for the key,
   * `set`, and then `update_latest_prediction`.
   */
  function SavePredictionWrites(user: string, model: string, key: string, prediction: Value,
                                timestamp: Option<Value>, nowMs: int, isoNow: string): seq<Write>
  {
    var stamp := StampOr(timestamp, nowMs);
    PushPredictionWrites(user, model, key, PredictionRecord(model, prediction, stamp, isoNow))
    + LatestPredictionWrites(user, model, prediction, stamp, isoNow)
  }

  /** The model reference, `push()`, the child for the key and `set`. */
  function PushPredictionWrites(user: string, model: string, key: string, record: Value): seq<Write>
  {
    var modelPath := PredictionsPath(user) + "/" + model;
    [EnsureW(At(modelPath)), EnsureW(At(modelPath + "/" + key)), EnsureW(At(modelPath + "/" + key)),
     SetW(At(modelPath + "/" + key), record)]
  }

  /** The record `save_alert` pushes: `level` defaults to "warning", `data` to `{}`, `read` is False. */
  function AlertRecord(alertType: string, message: string, level: Option<string>, data: Option<Value>,
                       timestamp: Option<Value>, nowMs: int, isoNow: string): Value
  {
    Dict([Entry("type", Str(alertType)), Entry("message", Str(message)),
          Entry("level", Str(if level.Some? then level.value else "warning")),
          Entry("data", if data.Some? then data.value else EmptyDict),
          Entry("timestamp", StampOr(timestamp, nowMs)), Entry("created_at", Str(isoNow)),
          Entry("read", Bool(false))])
  }

  /** `{**alert_data, 'alert_id': key}`. */
  function WithId(record: Value, key: string): Value
    requires record.Dict?
  {
    Dict(Assign(record.entries, "alert_id", Str(key)))
  }

  /** `save_alert`: `push()`, `set` on the child for the key, then `latest_alert`. */
  function SaveAlertWrites(user: string, key: string, record: Value): seq<Write>
    requires record.Dict?
  {
    PushAlertWrites(user, key, record) + LatestAlertWrites(user, key, record)
  }

  function PushAlertWrites(user: string, key: string, record: Value): seq<Write>
  {
    var alertPath := AlertsPath(user) + "/" + key;
    [EnsureW(At(alertPath)), EnsureW(At(alertPath)), SetW(At(alertPath), record)]
  }

  function LatestAlertWrites(user: string, key: string, record: Value): seq<Write>
    requires record.Dict?
  {
    var latestPath := StatusPath(user) + "/" + "latest_alert";
    [EnsureW(At(latestPath)), SetW(At(latestPath), WithId(record, key))]
  }

  /** What `update_user_monitoring_status` merges into the status node. */
  function StatusRecord(isMonitoring: bool, nowMs: int, isoNow: string): Value
  {
    Dict([Entry("is_monitoring", Bool(isMonitoring)), Entry("last_updated", Int(nowMs)),
          Entry("last_updated_iso", Str(isoNow))])
  }

  function LookupIn(v: Value, k: string): Option<Value>
  {
    if v.Dict? then Lookup(v.entries, k) else None
  }

  /** A key that no later entry repeats reads its own value. */
  lemma {:induction false} LookupAt(es: seq<Entry>, i: nat)
    requires i < |es| && forall j :: i < j < |es| ==> es[j].key != es[i].key
    ensures Lookup(es, es[i].key) == Some(es[i].value)
    decreases |es|
  {
    if i < |es| - 1 {
      LookupAt(es[..|es| - 1], i);
    }
  }

  /** The fields of the two prediction records. */
  lemma RecordFields(model: string, prediction: Value, stamp: Value, isoNow: string)
    ensures var r := PredictionRecord(model, prediction, stamp, isoNow);
      LookupIn(r, "model") == Some(Str(model)) && LookupIn(r, "prediction") == Some(prediction) &&
      LookupIn(r, "timestamp") == Some(stamp) && LookupIn(r, "created_at") == Some(Str(isoNow))
    ensures var r := LatestRecord(model, prediction, stamp, isoNow);
      LookupIn(r, "model") == Some(Str(model)) && LookupIn(r, "prediction") == Some(prediction) &&
      LookupIn(r, "timestamp") == Some(stamp) && LookupIn(r, "updated_at") == Some(Str(isoNow))
  {
    assert "created_at"[0] != "prediction"[0] && "updated_at"[0] != "prediction"[0];
    var a := PredictionRecord(model, prediction, stamp, isoNow).entries;
    var b := LatestRecord(model, prediction, stamp, isoNow).entries;
    LookupAt(a, 0); LookupAt(a, 1); LookupAt(a, 2); LookupAt(a, 3);
    LookupAt(b, 0); LookupAt(b, 1); LookupAt(b, 2); LookupAt(b, 3);
  }

  /**
   * `save_prediction` and `update_latest_prediction`: after a run that does
   * not raise, the pushed key holds `{model, prediction, timestamp,
   * created_at}`, stamped with the current time in ms when no timestamp was
   * given, and `latest_predictions/{model}` holds the same model, prediction
   * and timestamp with `updated_at`.
   */
  lemma SavedPredictionReadable(root: Value, user: string, model: string, key: string, prediction: Value,
                                timestamp: Option<Value>, nowMs: int, isoNow: string, n: Value)
    requires Segment(user) && Segment(model) && Segment(key)
    requires ApplyAll(root, SavePredictionWrites(user, model, key, prediction, timestamp, nowMs, isoNow)) == Outcome(n, None)
    ensures GetAt(n, ["predictions", user, model, key]) ==
      Ok(PredictionRecord(model, prediction, if timestamp.None? then Int(nowMs) else timestamp.value, isoNow))
    ensures GetAt(n, ["user_status", user, "latest_predictions", model]) ==
      Ok(LatestRecord(model, prediction, if timestamp.None? then Int(nowMs) else timestamp.value, isoNow))
  {
    var stamp := StampOr(timestamp, nowMs);
    var record := PredictionRecord(model, prediction, stamp, isoNow);
    var a := PushPredictionWrites(user, model, key, record);
    ApplyAllAppend(root, a, LatestPredictionWrites(user, model, prediction, stamp, isoNow));
    var m := ApplyAll(root, a).root;
    PushedPredictionStored(root, user, model, key, record, m);
    assert "predictions"[0] != "user_status"[0];
    LatestPredictionStored(m, user, model, prediction, stamp, isoNow, n);
    LatestPredictionKeeps(m, user, model, prediction, stamp, isoNow, n, ["predictions", user, model, key]);
  }

  lemma PushedPredictionStored(root: Value, user: string, model: string, key: string, record: Value, m: Value)
    requires Segment(user) && Segment(model) && Segment(key)
    requires ApplyAll(root, PushPredictionWrites(user, model, key, record)) == Outcome(m, None)
    ensures GetAt(m, ["predictions", user, model, key]) == Ok(record)
  {
    FixedSegments();
    Path4("predictions", user, model, key);
    LastWriteWins(root, PushPredictionWrites(user, model, key, record), 3, m);
  }

  /** `update_latest_prediction` sets its node. */
  lemma LatestPredictionStored(m: Value, user: string, model: string, prediction: Value, stamp: Value, isoNow: string,
                               n: Value)
    requires Segment(user) && Segment(model)
    requires ApplyAll(m, LatestPredictionWrites(user, model, prediction, stamp, isoNow)) == Outcome(n, None)
    ensures GetAt(n, ["user_status", user, "latest_predictions", model]) == Ok(LatestRecord(model, prediction, stamp, isoNow))
  {
    FixedSegments();
    Path4("user_status", user, "latest_predictions", model);
    LastWriteWins(m, LatestPredictionWrites(user, model, prediction, stamp, isoNow), 2, n);
  }

  /** `update_latest_prediction` leaves every path outside `user_status` alone. */
  lemma LatestPredictionKeeps(m: Value, user: string, model: string, prediction: Value, stamp: Value, isoNow: string,
                              n: Value, q: seq<string>)
    requires Segment(user) && Segment(model)
    requires ApplyAll(m, LatestPredictionWrites(user, model, prediction, stamp, isoNow)) == Outcome(n, None)
    requires q != [] && q[0] != "user_status"
    ensures GetAt(n, q) == GetAt(m, q)
  {
    FixedSegments();
    HeadOfPath3("user_status", user, "latest_predictions");
    HeadOfPath4("user_status", user, "latest_predictions", model);
    var latest := StatusPath(user) + "/" + "latest_predictions";
    ApplyOutside3(m, EnsureW(At(latest)), EnsureW(At(latest + "/" + model)),
                  SetW(At(latest + "/" + model), LatestRecord(model, prediction, stamp, isoNow)), "user_status", q);
  }


  /** `{**alert_data, 'alert_id': key}` reads as the alert, plus its key. */
  lemma WithIdFields(record: Value, key: string, k: string)
    requires record.Dict?
    ensures LookupIn(WithId(record, key), k) == if k == "alert_id" then Some(Str(key)) else LookupIn(record, k)
  {
    LookupAssign(record.entries, "alert_id", Str(key), k);
  }

  /**
   * `save_alert`: after a run that does not raise, the pushed key holds the
   * alert and `latest_alert` holds the same record plus `alert_id`.
   */
  lemma SavedAlertReadable(root: Value, user: string, key: string, record: Value, n: Value)
    requires Segment(user) && Segment(key) && record.Dict?
    requires ApplyAll(root, SaveAlertWrites(user, key, record)) == Outcome(n, None)
    ensures GetAt(n, ["alerts", user, key]) == Ok(record)
    ensures GetAt(n, ["user_status", user, "latest_alert"]) == Ok(WithId(record, key))
  {
    var a := PushAlertWrites(user, key, record);
    ApplyAllAppend(root, a, LatestAlertWrites(user, key, record));
    var m := ApplyAll(root, a).root;
    PushedAlertStored(root, user, key, record, m);
    LatestAlertStored(m, user, key, record, n);
    assert "alerts"[0] != "user_status"[0];
    LatestAlertKeeps(m, user, key, record, n, ["alerts", user, key]);
  }

  lemma PushedAlertStored(root: Value, user: string, key: string, record: Value, m: Value)
    requires Segment(user) && Segment(key)
    requires ApplyAll(root, PushAlertWrites(user, key, record)) == Outcome(m, None)
    ensures GetAt(m, ["alerts", user, key]) == Ok(record)
  {
    FixedSegments();
    Path3("alerts", user, key);
    LastWriteWins(root, PushAlertWrites(user, key, record), 2, m);
  }

  /** The `latest_alert` write of `save_alert` sets its node. */
  lemma LatestAlertStored(m: Value, user: string, key: string, record: Value, n: Value)
    requires Segment(user) && record.Dict?
    requires ApplyAll(m, LatestAlertWrites(user, key, record)) == Outcome(n, None)
    ensures GetAt(n, ["user_status", user, "latest_alert"]) == Ok(WithId(record, key))
  {
    FixedSegments();
    Path3("user_status", user, "latest_alert");
    LastWriteWins(m, LatestAlertWrites(user, key, record), 1, n);
  }

  /** The `latest_alert` write of `save_alert` leaves every path outside `user_status` alone. */
  lemma LatestAlertKeeps(m: Value, user: string, key: string, record: Value, n: Value, q: seq<string>)
    requires Segment(user) && record.Dict?
    requires ApplyAll(m, LatestAlertWrites(user, key, record)) == Outcome(n, None)
    requires q != [] && q[0] != "user_status"
    ensures GetAt(n, q) == GetAt(m, q)
  {
    FixedSegments();
    HeadOfPath3("user_status", user, "latest_alert");
    var latest := At(StatusPath(user) + "/" + "latest_alert");
    ApplyOutside2(m, EnsureW(latest), SetW(latest, WithId(record, key)), "user_status", q);
  }


  /** The defaults of `save_alert`: level "warning", data `{}`, unread, stamped now. */
  lemma AlertDefaults(alertType: string, message: string, nowMs: int, isoNow: string)
    ensures var r := AlertRecord(alertType, message, None, None, None, nowMs, isoNow);
      LookupIn(r, "level") == Some(Str("warning")) && LookupIn(r, "data") == Some(EmptyDict) &&
      LookupIn(r, "read") == Some(Bool(false)) && LookupIn(r, "timestamp") == Some(Int(nowMs)) &&
      LookupIn(r, "type") == Some(Str(alertType)) && LookupIn(r, "message") == Some(Str(message))
  {
    assert "data"[0] != "read"[0] && "type"[0] != "data"[0] && "type"[0] != "read"[0];
    var a := AlertRecord(alertType, message, None, None, None, nowMs, isoNow).entries;
    LookupAt(a, 0); LookupAt(a, 1); LookupAt(a, 2); LookupAt(a, 3); LookupAt(a, 4); LookupAt(a, 6);
  }

  /**
   * `update_user_monitoring_status`: the status node gains `is_monitoring`,
   * `last_updated` in ms and `last_updated_iso`, and keeps its other keys.
   */
  lemma MonitoringStatusMerged(root: Value, user: string, isMonitoring: bool, nowMs: int, isoNow: string,
                               n: Value, k: string)
    requires Segment(user) && root.Dict?
    requires ApplyAll(root, [UpdateW(At(StatusPath(user)), StatusRecord(isMonitoring, nowMs, isoNow))]) == Outcome(n, None)
    ensures GetAt(root, ["user_status", user]).Ok?
    ensures var before := GetAt(root, ["user_status", user]).value;
      var after := GetAt(n, ["user_status", user]);
      var s := StatusRecord(isMonitoring, nowMs, isoNow);
      after.Ok? && after.value.Dict? &&
      LookupIn(after.value, k) ==
        if Lookup(s.entries, k).Some? || !before.Dict? then Lookup(s.entries, k) else Lookup(before.entries, k)
  {
    var s := StatusRecord(isMonitoring, nowMs, isoNow);
    FixedSegments();
    Path2("user_status", user);
    assert [UpdateW(At(StatusPath(user)), s)][1..] == [];
    UpdateMerges(root, ["user_status", user], s, k, []);
  }

  // ---------------------------------------------------------------------------
  // Recent predictions
  // ---------------------------------------------------------------------------

  /** `prediction.get('timestamp', 0)` as a number to compare with an int; a missing one is 0. */
  function TimestampOf(rec: Value): Res<real>
  {
    if !rec.Dict? then Raised("AttributeError")
    else
      var t := Lookup(rec.entries, "timestamp");
      if t.None? then Ok(0.0)
      else match t.value
        case Int(i) => Ok(i as real)
        case Real(r) => Ok(r)
        case Bool(b) => Ok(if b then 1.0 else 0.0)
        case _ => Raised("TypeError")
  }

  /** `{**prediction, 'id': key}`. */
  function Tagged(key: string, rec: Value): Value
    requires rec.Dict?
  {
    Dict(Assign(rec.entries, "id", Str(key)))
  }

  /** The comprehension of `get_recent_predictions` over the query's items. */
  function KeepRecent(es: seq<Entry>, cutoff: int): Res<seq<Value>>
    decreases |es|
  {
    if es == [] then Ok([])
    else
      var t := TimestampOf(es[0].value);
      if t.Raised? then Raised(t.error)
      else
        var rest := KeepRecent(es[1..], cutoff);
        if rest.Raised? then rest
        else Ok((if t.value >= cutoff as real then [Tagged(es[0].key, es[0].value)] else []) + rest.value)
  }

  /** Python's truth value of a stored value. */
  predicate Truthy(v: Value)
  {
    match v
    case Dict(es) => es != []
    case Str(s) => s != ""
    case Int(i) => i != 0
    case Real(r) => r != 0.0
    case Bool(b) => b
    case Null => false
  }

  /** `int((time.time() - minutes * 60) * 1000)`, on a clock in milliseconds. */
  function Cutoff(nowMs: int, minutes: int): int
  {
    nowMs - minutes * 60000
  }

  /** The filter of `get_recent_predictions` applied to what the query read. */
  function RecentFrom(query: Value, cutoff: int): Res<seq<Value>>
  {
    if !Truthy(query) then Ok([])
    else if !query.Dict? then Raised("AttributeError")
    else KeepRecent(query.entries, cutoff)
  }

  /**
   * `get_recent_predictions`: the model reference (which creates its path),
   * the query, whose ordering and limit the store ignores, and the filter;
   * the tree after the call and the result.
   */
  function RecentPredictionsAt(root: Value, user: string, model: string, minutes: int, nowMs: int): (Value, Res<seq<Value>>)
  {
    var created := EnsureAt(root, At(PredictionsPath(user) + "/" + model));
    if created.Raised? then (root, Raised(created.error))
    else
      var query := GetAt(created.value, At(PredictionsPath(user) + "/" + model));
      if query.Raised? then (created.value, Raised(query.error))
      else (created.value, RecentFrom(query.value, Cutoff(nowMs, minutes)))
  }

  /**
   * The filter keeps exactly the entries stamped at or after the cutoff, a
   * missing stamp counting as 0, each tagged with its key as `id`, in the
   * query's order.
   */
  lemma {:induction false} KeepRecentExactly(es: seq<Entry>, cutoff: int)
    requires KeepRecent(es, cutoff).Ok?
    ensures forall j :: 0 <= j < |es| ==> TimestampOf(es[j].value).Ok?
    ensures var rs := KeepRecent(es, cutoff).value;
      forall j :: 0 <= j < |es| && TimestampOf(es[j].value).value >= cutoff as real ==>
        Tagged(es[j].key, es[j].value) in rs
    ensures var rs := KeepRecent(es, cutoff).value;
      forall x :: x in rs ==>
        (exists j :: 0 <= j < |es| && TimestampOf(es[j].value).value >= cutoff as real && x == Tagged(es[j].key, es[j].value))
    ensures |KeepRecent(es, cutoff).value| <= |es|
    decreases |es|
  {
    if es != [] {
      KeepRecentExactly(es[1..], cutoff);
      var rs := KeepRecent(es, cutoff).value;
      var rest := KeepRecent(es[1..], cutoff).value;
      var head := if TimestampOf(es[0].value).value >= cutoff as real then [Tagged(es[0].key, es[0].value)] else [];
      assert rs == head + rest;
      forall j | 0 <= j < |es| ensures TimestampOf(es[j].value).Ok? {
        if j > 0 {
          assert es[j] == es[1..][j - 1];
        }
      }
      forall x | x in rs
        ensures (exists j :: 0 <= j < |es| && TimestampOf(es[j].value).value >= cutoff as real && x == Tagged(es[j].key, es[j].value))
      {
        if x in rest {
          var j :| 0 <= j < |es[1..]| && TimestampOf(es[1..][j].value).value >= cutoff as real &&
            x == Tagged(es[1..][j].key, es[1..][j].value);
          assert es[1..][j] == es[j + 1];
        } else {
          assert x in head;
        }
      }
      forall j | 0 <= j < |es| && TimestampOf(es[j].value).value >= cutoff as real
        ensures Tagged(es[j].key, es[j].value) in rs
      {
        if j > 0 {
          assert es[j] == es[1..][j - 1];
        }
      }
    }
  }

  /** Each kept entry carries its key as `id`. */
  lemma TaggedCarriesId(key: string, rec: Value)
    requires rec.Dict?
    ensures LookupIn(Tagged(key, rec), "id") == Some(Str(key))
    ensures forall k :: k != "id" ==> LookupIn(Tagged(key, rec), k) == Lookup(rec.entries, k)
  {
    forall k ensures LookupIn(Tagged(key, rec), k) == if k == "id" then Some(Str(key)) else Lookup(rec.entries, k) {
      LookupAssign(rec.entries, "id", Str(key), k);
    }
  }

  /** An empty query gives no predictions. */
  lemma NothingStoredNothingRecent(root: Value, user: string, model: string, minutes: int, nowMs: int)
    requires Segment(user) && Segment(model)
    requires root.Dict? && NodeAt(root, ["predictions", user, model]).None?
    requires EnsureAt(root, ["predictions", user, model]).Ok?
    ensures RecentPredictionsAt(root, user, model, minutes, nowMs) == (EnsureAt(root, ["predictions", user, model]).value, Ok([]))
  {
    FixedSegments();
    Path3("predictions", user, model);
    EnsureReaches(root, ["predictions", user, model]);
    GetPresent(EnsureAt(root, ["predictions", user, model]).value, ["predictions", user, model]);
  }

  // ---------------------------------------------------------------------------
  // Timestamps of stress records
  // ---------------------------------------------------------------------------

  /** The stamp `stress_detection.py` passes: `time.time()`, in seconds. */
  function StressStampAsWritten(nowMs: int): Value
  {
    Real(nowMs as real / 1000.0)
  }

  /** The stamp of the model's flush: the clock in milliseconds, like every other writer's. */
  function StressStamp(r: StressWorker.StressRecord): Value
  {
    Int(r.timestamp)
  }

  /**
   * As written, a stress prediction saved at any time from 00:05:01 UTC on
   * 1 January 1970 on is never recent for `get_recent_predictions`'s default
   * five minutes, whenever it is read: seconds are compared with milliseconds.
   */
  lemma SecondStampsNeverRecent(savedMs: int, nowMs: int, isoNow: string, key: string)
    requires 300301 <= savedMs <= nowMs
    ensures var rec := PredictionRecord("stress", Dict([Entry("stress_level", Real(0.8))]), StressStampAsWritten(savedMs), isoNow);
      KeepRecent([Entry(key, rec)], Cutoff(nowMs, 5)) == Ok([])
  {
    var rec := PredictionRecord("stress", Dict([Entry("stress_level", Real(0.8))]), StressStampAsWritten(savedMs), isoNow);
    RecordFields("stress", Dict([Entry("stress_level", Real(0.8))]), StressStampAsWritten(savedMs), isoNow);
    SecondsBelowCutoff(savedMs, nowMs);
    assert TimestampOf(rec) == Ok(savedMs as real / 1000.0);
    var es := [Entry(key, rec)];
    assert es[0].value == rec && es[1..] == [];
    assert KeepRecent(es[1..], Cutoff(nowMs, 5)) == Ok([]);
    var none: seq<Value> := [];
    assert none + none == none;
    assert KeepRecent(es, Cutoff(nowMs, 5)) == Ok(none + none);
  }

  lemma SecondsBelowCutoff(savedMs: int, nowMs: int)
    requires 300301 <= savedMs <= nowMs
    ensures savedMs as real / 1000.0 < Cutoff(nowMs, 5) as real
  {
    assert savedMs as real / 1000.0 <= nowMs as real / 1000.0;
    assert nowMs as real / 1000.0 < (nowMs - 300000) as real;
  }

  /** With the stamp in milliseconds, a stress prediction saved in the last five minutes is recent. */
  lemma MillisecondStampsRecent(r: StressWorker.StressRecord, nowMs: int, isoNow: string, key: string)
    requires Cutoff(nowMs, 5) <= r.timestamp
    ensures var rec := PredictionRecord("stress", Dict([Entry("stress_level", Real(r.stressLevel))]), StressStamp(r), isoNow);
      KeepRecent([Entry(key, rec)], Cutoff(nowMs, 5)) == Ok([Tagged(key, rec)])
  {
    var rec := PredictionRecord("stress", Dict([Entry("stress_level", Real(r.stressLevel))]), StressStamp(r), isoNow);
    RecordFields("stress", Dict([Entry("stress_level", Real(r.stressLevel))]), StressStamp(r), isoNow);
    assert TimestampOf(rec) == Ok(r.timestamp as real);
    var es := [Entry(key, rec)];
    assert es[0].value == rec && es[1..] == [];
    assert KeepRecent(es[1..], Cutoff(nowMs, 5)) == Ok([]);
    var none: seq<Value> := [];
    assert [Tagged(key, rec)] + none == [Tagged(key, rec)];
    assert KeepRecent(es, Cutoff(nowMs, 5)) == Ok([Tagged(key, rec)] + none);
  }

  // ---------------------------------------------------------------------------
  // Averages
  // ---------------------------------------------------------------------------

  /**
   * What `calculate_prediction_average` returns for the four models it knows;
   * the per-emotion means are not modelled, only the sample count.
   */
  datatype Average =
    | PresenceAverage(averagePresence: real, samples: nat)
    | EmotionAverage(samples: nat)
    | AttentionAverage(averageAttention: real, samples: nat)
    | PostureAverage(averagePosture: real, samples: nat)

  /** A stored number as Python adds it: True is 1, False is 0. */
  function NumberOf(v: Value): Res<real>
  {
    match v
    case Int(i) => Ok(i as real)
    case Real(r) => Ok(r)
    case Bool(b) => Ok(if b then 1.0 else 0.0)
    case _ => Raised("TypeError")
  }

  /** `p['prediction'].get(field, default)` as a number. */
  function FieldNumber(p: Value, field: string, default: real): Res<real>
  {
    if !p.Dict? then Raised("TypeError")
    else
      var pred := Lookup(p.entries, "prediction");
      if pred.None? then Raised("KeyError")
      else if !pred.value.Dict? then Raised("AttributeError")
      else
        var f := Lookup(pred.value.entries, field);
        if f.None? then Ok(default) else NumberOf(f.value)
  }

  /** The sum of the field over the predictions. */
  function FieldSum(ps: seq<Value>, field: string, default: real): Res<real>
    decreases |ps|
  {
    if ps == [] then Ok(0.0)
    else
      var x := FieldNumber(ps[0], field, default);
      if x.Raised? then x
      else
        var rest := FieldSum(ps[1..], field, default);
        if rest.Raised? then rest else Ok(x.value + rest.value)
  }

  function FieldMean(ps: seq<Value>, field: string, default: real): Res<real>
    requires ps != []
  {
    var s := FieldSum(ps, field, default);
    if s.Raised? then s else Ok(s.value / |ps| as real)
  }

  /** The body of `calculate_prediction_average` after the query. */
  function AverageOf(model: string, ps: seq<Value>): Res<Option<Average>>
  {
    if ps == [] then Ok(None)
    else if model == "face_recognition" then
      var m := FieldMean(ps, "present", 0.0);
      if m.Raised? then Raised(m.error) else Ok(Some(PresenceAverage(m.value, |ps|)))
    else if model == "emotion" then Ok(Some(EmotionAverage(|ps|)))
    else if model == "attention" then
      var m := FieldMean(ps, "attention_score", 0.0);
      if m.Raised? then Raised(m.error) else Ok(Some(AttentionAverage(m.value, |ps|)))
    else if model == "posture" then
      var m := FieldMean(ps, "posture_score", 0.0);
      if m.Raised? then Raised(m.error) else Ok(Some(PostureAverage(m.value, |ps|)))
    else Ok(None)
  }

  /**
   * No average without recent predictions or for a model other than the four
   * it knows, so `cvs`, `stress` and `hydration` never have one; otherwise
   * the average counts every sample.
   */
  lemma AverageCases(model: string, ps: seq<Value>)
    ensures ps == [] ==> AverageOf(model, ps) == Ok(None)
    ensures model !in {"face_recognition", "emotion", "attention", "posture"} ==> AverageOf(model, ps) == Ok(None)
    ensures ps != [] && model in {"face_recognition", "emotion", "attention", "posture"} && AverageOf(model, ps).Ok? ==>
      AverageOf(model, ps).value.Some? && AverageOf(model, ps).value.value.samples == |ps|
  {
  }

  /** How many predictions say `present` is True. */
  function PresentCount(ps: seq<Value>): nat
    decreases |ps|
  {
    if ps == [] then 0
    else (if LookupIn(ps[0], "prediction").Some? && LookupIn(LookupIn(ps[0], "prediction").value, "present") == Some(Bool(true))
          then 1 else 0) + PresentCount(ps[1..])
  }

  /** The prediction records `present` as a boolean, or not at all. */
  predicate PresenceFlag(p: Value)
  {
    p.Dict? && LookupIn(p, "prediction").Some? && LookupIn(p, "prediction").value.Dict? &&
    (LookupIn(LookupIn(p, "prediction").value, "present").None? ||
     LookupIn(LookupIn(p, "prediction").value, "present").value.Bool?)
  }

  /** Every prediction records `present` as a boolean, or not at all. */
  predicate PresenceFlags(ps: seq<Value>)
  {
    forall i :: 0 <= i < |ps| ==> PresenceFlag(ps[i])
  }

  lemma {:induction false} PresenceSum(ps: seq<Value>)
    requires PresenceFlags(ps)
    ensures FieldSum(ps, "present", 0.0) == Ok(PresentCount(ps) as real)
    decreases |ps|
  {
    if ps != [] {
      assert PresenceFlags(ps[1..]) by {
        forall i | 0 <= i < |ps[1..]| ensures ps[1..][i] == ps[i + 1] {}
      }
      PresenceSum(ps[1..]);
    }
  }

  lemma PresentCountBound(ps: seq<Value>)
    ensures PresentCount(ps) <= |ps|
  {
  }

  /**
   * For `face_recognition` the average presence is the share of samples
   * marked present, a missing flag counting as absent.
   */
  lemma PresenceIsShare(ps: seq<Value>)
    requires ps != [] && PresenceFlags(ps)
    ensures AverageOf("face_recognition", ps) ==
      Ok(Some(PresenceAverage(PresentCount(ps) as real / |ps| as real, |ps|)))
    ensures 0.0 <= PresentCount(ps) as real / |ps| as real <= 1.0
  {
    PresenceMean(ps);
    PresentCountBound(ps);
    ShareBound(PresentCount(ps), |ps|);
  }

  lemma PresenceMean(ps: seq<Value>)
    requires ps != [] && PresenceFlags(ps)
    ensures FieldMean(ps, "present", 0.0) == Ok(PresentCount(ps) as real / |ps| as real)
  {
    PresenceSum(ps);
    MeanOfSum(ps, "present", 0.0, PresentCount(ps) as real);
  }

  lemma MeanOfSum(ps: seq<Value>, field: string, default: real, total: real)
    requires ps != [] && FieldSum(ps, field, default) == Ok(total)
    ensures FieldMean(ps, field, default) == Ok(total / |ps| as real)
  {
  }

  lemma ShareBound(k: nat, n: nat)
    requires 0 < n && k <= n
    ensures 0.0 <= k as real / n as real <= 1.0
  {
  }

  // ---------------------------------------------------------------------------
  // The manager
  // ---------------------------------------------------------------------------

  /** One more write after an outcome: nothing more happens once a write has raised. */
  function Then(o: Outcome, w: Write): Outcome
  {
    if o.raised.Some? then o
    else
      var a := Apply(o.root, w);
      if a.Raised? then Outcome(o.root, Some(a.error)) else Outcome(a.value, None)
  }

  lemma Run1(root: Value, w0: Write)
    ensures ApplyAll(root, [w0]) == Then(Outcome(root, None), w0)
  {
    assert [w0][1..] == [];
  }

  lemma Run2(root: Value, w0: Write, w1: Write)
    ensures ApplyAll(root, [w0, w1]) == Then(Then(Outcome(root, None), w0), w1)
  {
    assert [w0, w1][1..] == [w1];
    var a := Apply(root, w0);
    if a.Ok? {
      Run1(a.value, w1);
    }
  }

  lemma Run3(root: Value, w0: Write, w1: Write, w2: Write)
    ensures ApplyAll(root, [w0, w1, w2]) == Then(Then(Then(Outcome(root, None), w0), w1), w2)
  {
    assert [w0, w1, w2][1..] == [w1, w2];
    var a := Apply(root, w0);
    if a.Ok? {
      Run2(a.value, w1, w2);
    }
  }

  lemma Run4(root: Value, w0: Write, w1: Write, w2: Write, w3: Write)
    ensures ApplyAll(root, [w0, w1, w2, w3]) == Then(Then(Then(Then(Outcome(root, None), w0), w1), w2), w3)
  {
    assert [w0, w1, w2, w3][1..] == [w1, w2, w3];
    var a := Apply(root, w0);
    if a.Ok? {
      Run3(a.value, w1, w2, w3);
    }
  }

  /** `DatabaseManager(user_id)`: the user and the store its references point into. */
  class DatabaseManager {
    const userId: string
    const db: MockDatabase

    constructor(userId: string, db: MockDatabase)
      ensures this.userId == userId && this.db == db
    {
      this.userId := userId;
      this.db := db;
    }

    function PredictionsRef(): Ref { Ref(PredictionsPath(userId), None, None) }
    function AlertsRef(): Ref { Ref(AlertsPath(userId), None, None) }
    function StatusRef(): Ref { Ref(StatusPath(userId), None, None) }

    /** `update_latest_prediction`. */
    method UpdateLatestPrediction(model: string, prediction: Value, stamp: Value, isoNow: string)
      returns (raised: Option<string>)
      requires db.Valid()
      modifies db
      ensures db.Valid()
      ensures ApplyAll(old(db.root), LatestPredictionWrites(userId, model, prediction, stamp, isoNow)) == Outcome(db.root, raised)
    {
      var latestData := LatestRecord(model, prediction, stamp, isoNow);
      ghost var latestPath := StatusPath(userId) + "/" + "latest_predictions";
      ghost var w0, w1, w2 := EnsureW(At(latestPath)), EnsureW(At(latestPath + "/" + model)),
        SetW(At(latestPath + "/" + model), latestData);
      Run3(db.root, w0, w1, w2);
      ghost var o := Outcome(db.root, None);
      var latest := db.Child(StatusRef(), "latest_predictions");
      o := Then(o, w0);
      if latest.Raised? {
        return Some(latest.error);
      }
      var modelRef := db.Child(latest.value, model);
      o := Then(o, w1);
      if modelRef.Raised? {
        return Some(modelRef.error);
      }
      var s := db.Set(modelRef.value, latestData);
      o := Then(o, w2);
      if s.Raised? {
        return Some(s.error);
      }
      return None;
    }

    /** The first half of `save_prediction`: the model reference, `push()`, and `set` on the child for the key. */
    method PushPrediction(model: string, key: string, data: Value) returns (raised: Option<string>)
      requires db.Valid()
      modifies db
      ensures db.Valid()
      ensures ApplyAll(old(db.root), PushPredictionWrites(userId, model, key, data)) == Outcome(db.root, raised)
    {
      ghost var modelPath := PredictionsPath(userId) + "/" + model;
      ghost var w0, w1, w3 := EnsureW(At(modelPath)), EnsureW(At(modelPath + "/" + key)), SetW(At(modelPath + "/" + key), data);
      Run4(db.root, w0, w1, w1, w3);
      ghost var o := Outcome(db.root, None);
      var modelRef := db.Child(PredictionsRef(), model);
      o := Then(o, w0);
      if modelRef.Raised? {
        return Some(modelRef.error);
      }
      var pushed := db.Push(modelRef.value, key);
      o := Then(o, w1);
      if pushed.Raised? {
        return Some(pushed.error);
      }
      var keyRef := db.Child(modelRef.value, key);
      o := Then(o, w1);
      if keyRef.Raised? {
        return Some(keyRef.error);
      }
      var s := db.Set(keyRef.value, data);
      o := Then(o, w3);
      if s.Raised? {
        return Some(s.error);
      }
      return None;
    }

    /**
     * `save_prediction`: returns the key it stored the record under; `key` is
     * the one `push()` makes up.
     */
    method SavePrediction(model: string, prediction: Value, timestamp: Option<Value>, nowMs: int, isoNow: string,
                          key: string) returns (r: Res<string>)
      requires db.Valid()
      modifies db
      ensures db.Valid()
      ensures ApplyAll(old(db.root), SavePredictionWrites(userId, model, key, prediction, timestamp, nowMs, isoNow)) ==
        Outcome(db.root, if r.Ok? then None else Some(r.error))
      ensures r.Ok? ==> r.value == key
    {
      var stamp := if timestamp.None? then Int(nowMs) else timestamp.value;
      var data := PredictionRecord(model, prediction, stamp, isoNow);
      ApplyAllAppend(db.root, PushPredictionWrites(userId, model, key, data),
        LatestPredictionWrites(userId, model, prediction, stamp, isoNow));
      var raised := PushPrediction(model, key, data);
      if raised.Some? {
        return Raised(raised.value);
      }
      raised := UpdateLatestPrediction(model, prediction, stamp, isoNow);
      if raised.Some? {
        return Raised(raised.value);
      }
      return Ok(key);
    }

    /** The first half of `save_alert`: `push()` and `set` on the child for the key. */
    method PushAlert(key: string, alertData: Value) returns (raised: Option<string>)
      requires db.Valid()
      modifies db
      ensures db.Valid()
      ensures ApplyAll(old(db.root), PushAlertWrites(userId, key, alertData)) == Outcome(db.root, raised)
    {
      ghost var alertPath := AlertsPath(userId) + "/" + key;
      ghost var w0, w2 := EnsureW(At(alertPath)), SetW(At(alertPath), alertData);
      Run3(db.root, w0, w0, w2);
      ghost var o := Outcome(db.root, None);
      var pushed := db.Push(AlertsRef(), key);
      o := Then(o, w0);
      if pushed.Raised? {
        return Some(pushed.error);
      }
      var keyRef := db.Child(AlertsRef(), key);
      o := Then(o, w0);
      if keyRef.Raised? {
        return Some(keyRef.error);
      }
      var s := db.Set(keyRef.value, alertData);
      o := Then(o, w2);
      if s.Raised? {
        return Some(s.error);
      }
      return None;
    }

    /** `save_alert`: returns the key it stored the alert under; `key` is the one `push()` makes up. */
    method SaveAlert(alertType: string, message: string, level: Option<string>, data: Option<Value>,
                     timestamp: Option<Value>, nowMs: int, isoNow: string, key: string) returns (r: Res<string>)
      requires db.Valid()
      modifies db
      ensures db.Valid()
      ensures ApplyAll(old(db.root), SaveAlertWrites(userId, key, AlertRecord(alertType, message, level, data, timestamp, nowMs, isoNow))) ==
        Outcome(db.root, if r.Ok? then None else Some(r.error))
      ensures r.Ok? ==> r.value == key
    {
      var alertData := AlertRecord(alertType, message, level, data, timestamp, nowMs, isoNow);
      ApplyAllAppend(db.root, PushAlertWrites(userId, key, alertData), LatestAlertWrites(userId, key, alertData));
      var raised := PushAlert(key, alertData);
      if raised.Some? {
        return Raised(raised.value);
      }
      ghost var latestPath := StatusPath(userId) + "/" + "latest_alert";
      ghost var w3, w4 := EnsureW(At(latestPath)), SetW(At(latestPath), WithId(alertData, key));
      Run2(db.root, w3, w4);
      ghost var o := Outcome(db.root, None);
      var latest := db.Child(StatusRef(), "latest_alert");
      o := Then(o, w3);
      if latest.Raised? {
        return Raised(latest.error);
      }
      var s := db.Set(latest.value, WithId(alertData, key));
      o := Then(o, w4);
      if s.Raised? {
        return Raised(s.error);
      }
      return Ok(key);
    }

    /** `get_recent_predictions`: `limit` reaches the query, which the store ignores. */
    method GetRecentPredictions(model: string, minutes: int, limit: int, nowMs: int) returns (r: Res<seq<Value>>)
      requires db.Valid()
      modifies db
      ensures db.Valid()
      ensures var s := RecentPredictionsAt(old(db.root), userId, model, minutes, nowMs);
        db.root == s.0 && r == s.1
    {
      var cutoff := Cutoff(nowMs, minutes);
      var modelRef := db.Child(PredictionsRef(), model);
      if modelRef.Raised? {
        return Raised(modelRef.error);
      }
      var query := db.Get(LimitToLast(OrderByChild(modelRef.value, "timestamp"), limit));
      if query.Raised? {
        return Raised(query.error);
      }
      r := RecentFrom(query.value, cutoff);
    }

    /** `calculate_prediction_average` over the last `minutes`, at most 100 predictions. */
    method CalculatePredictionAverage(model: string, minutes: int, nowMs: int) returns (r: Res<Option<Average>>)
      requires db.Valid()
      modifies db
      ensures db.Valid()
      ensures var s := RecentPredictionsAt(old(db.root), userId, model, minutes, nowMs);
        db.root == s.0 && r == if s.1.Raised? then Raised(s.1.error) else AverageOf(model, s.1.value)
    {
      var predictions := GetRecentPredictions(model, minutes, 100, nowMs);
      if predictions.Raised? {
        return Raised(predictions.error);
      }
      r := AverageOf(model, predictions.value);
    }

    /** `update_user_monitoring_status`. */
    method UpdateUserMonitoringStatus(isMonitoring: bool, nowMs: int, isoNow: string) returns (raised: Option<string>)
      requires db.Valid()
      modifies db
      ensures db.Valid()
      ensures ApplyAll(old(db.root), [UpdateW(At(StatusPath(userId)), StatusRecord(isMonitoring, nowMs, isoNow))]) ==
        Outcome(db.root, raised)
    {
      var u := db.Update(StatusRef(), StatusRecord(isMonitoring, nowMs, isoNow));
      raised := if u.Raised? then Some(u.error) else None;
    }

    /** `get_user_monitoring_status`: what the status node holds, `{}` when it is missing. */
    method GetUserMonitoringStatus() returns (r: Res<Value>)
      ensures r == GetAt(db.root, At(StatusPath(userId)))
    {
      r := db.Get(StatusRef());
    }
  }

  /** The body of `DatabaseManager.__init__`: the three references, the first that raises ending it. */
  method OpenReferences(userId: string, db: MockDatabase) returns (raised: Option<string>)
    requires db.Valid()
    modifies db
    ensures db.Valid()
    ensures ApplyAll(old(db.root), OpenWrites(userId)) == Outcome(db.root, raised)
  {
    ghost var w0, w1, w2 := EnsureW(At(PredictionsPath(userId))), EnsureW(At(AlertsPath(userId))),
      EnsureW(At(StatusPath(userId)));
    Run3(db.root, w0, w1, w2);
    ghost var o := Outcome(db.root, None);
    var p := db.Reference(PredictionsPath(userId));
    o := Then(o, w0);
    if p.Raised? {
      return Some(p.error);
    }
    var a := db.Reference(AlertsPath(userId));
    o := Then(o, w1);
    if a.Raised? {
      return Some(a.error);
    }
    var s := db.Reference(StatusPath(userId));
    o := Then(o, w2);
    if s.Raised? {
      return Some(s.error);
    }
    return None;
  }

  /**
   * `DatabaseManager(user_id)`: creating the three references may raise, and
   * then no manager is made.
   */
  method Open(userId: string, db: MockDatabase) returns (r: Res<DatabaseManager>)
    requires db.Valid()
    modifies db
    ensures db.Valid()
    ensures ApplyAll(old(db.root), OpenWrites(userId)) == Outcome(db.root, if r.Ok? then None else Some(r.error))
    ensures r.Ok? ==> r.value.userId == userId && r.value.db == db
  {
    var raised := OpenReferences(userId, db);
    if raised.Some? {
      return Raised(raised.value);
    }
    var m := new DatabaseManager(userId, db);
    return Ok(m);
  }
}

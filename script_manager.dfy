/**
 * `ScriptManager` (`utils/script_manager.py`): the registry of monitoring
 * processes of the hydration API, keyed by `"<type>_<user>"`, with the
 * reference to the webcam server and one non-reentrant `threading.Lock`.
 *
 * The operations are first stated as functions on a `ManagerState` value.
 * Those named `...AsWritten` follow the source line by line, including its
 * nested lock acquisitions, which block forever; the class `ScriptManager`
 * implements the corrected operations and is proved equal to their functions.
 *
 * The socket probe of port 9999, process liveness (`poll() is None`), the
 * outcome of `Popen`, and whether a process exits within its grace period after
 * `terminate()` are parameters.
 */
module ScriptManagerModel {
  import opened Common

  /** The keys of `script_paths`. */
  const ScriptTypes: set<string> := {"webcam", "posture", "stress", "cvs", "hydration"}

  /** `webcam_process`: `None`, the placeholder `True`, or a `Popen` handle. */
  datatype WebcamRef = NoRef | Sentinel | Handle(pid: Pid)

  /**
   * Starting a monitoring script: opening its log file or `Popen` raised, or
   * the child started; `exitTick` is the half-second poll at which it is first
   * seen to have exited (`None`: it keeps running).
   */
  datatype WorkerLaunch = WorkerRaised(error: string) | WorkerStarted(pid: Pid, exitTick: Option<nat>)

  /** A call either returns, or waits forever to acquire the lock its own thread holds. */
  datatype Outcome<T> = Returns(value: T) | BlocksForever

  datatype ManagerState = ManagerState(
    backendDir: string,
    processes: map<string, Pid>,
    webcam: WebcamRef,
    lockHeld: bool,
    signals: seq<Signal>)

  /** What `get_monitoring_status` returns. */
  datatype Status =
    | WebcamStatus(webcamServerActive: bool, userId: string)
    | MonitoringStatus(isMonitoring: bool, webcamServerActive: bool, monitoringType: string, userId: string)

  /** The start-up wait polls every 0.5 s for at most 10 s. */
  const StartupTicks: nat := 20

  function Key(monitoringType: string, userId: string): string
  {
    monitoringType + "_" + userId
  }

  function LogPath(backendDir: string, key: string): string
  {
    backendDir + "/" + key + ".log"
  }

  predicate AliveAt(exitTick: Option<nat>, tick: nat)
  {
    exitTick.None? || tick < exitTick.value
  }

  /** The child is still running when the start-up wait ends. */
  predicate SurvivesStartup(exitTick: Option<nat>)
  {
    AliveAt(exitTick, StartupTicks)
  }

  /** The reference counts as a running server: the placeholder, or a live handle. */
  predicate RefRunning(w: WebcamRef, live: set<Pid>)
  {
    w.Sentinel? || (w.Handle? && w.pid in live)
  }

  // ---------------------------------------------------------------------------
  // Keys
  // ---------------------------------------------------------------------------

  /** `key.split('_')` taken apart as `cleanup` does: the first part and the rest re-joined. */
  function SplitKey(key: string): (r: Option<(string, string)>)
    ensures r.Some? <==> '_' in key
    ensures r.Some? ==> '_' !in r.value.0 && key == Key(r.value.0, r.value.1)
  {
    if key == [] then None
    else if key[0] == '_' then Some(([], key[1..]))
    else match SplitKey(key[1..])
      case None => None
      case Some((t, u)) => Some(([key[0]] + t, u))
  }

  /** A key built from a type without `_` splits back into that type and the user id. */
  lemma {:induction false} SplitKeyRecovers(monitoringType: string, userId: string)
    requires '_' !in monitoringType
    ensures SplitKey(Key(monitoringType, userId)) == Some((monitoringType, userId))
  {
    var k := Key(monitoringType, userId);
    if monitoringType != [] {
      assert k[1..] == Key(monitoringType[1..], userId);
      SplitKeyRecovers(monitoringType[1..], userId);
      assert [monitoringType[0]] + monitoringType[1..] == monitoringType;
    } else {
      assert k[1..] == userId;
    }
  }

  lemma ScriptTypesHaveNoUnderscore(t: string)
    requires t in ScriptTypes
    ensures '_' !in t
  {
  }

  // ---------------------------------------------------------------------------
  // The webcam server
  // ---------------------------------------------------------------------------

  /** The body of `start_webcam_server` once the lock is held, as written. */
  function WebcamStartBodyAsWritten(s: ManagerState, probe: bool, live: set<Pid>, launch: Launch): (r: (Reply, ManagerState))
  {
    if probe then
      if s.webcam.Sentinel? then (Reply(false, "'bool' object has no attribute 'poll'"), s)
      else if s.webcam.NoRef? || s.webcam.pid !in live then (Reply(true, "Webcam server is already running"), s.(webcam := Sentinel))
      else (Reply(true, "Webcam server is already running"), s)
    else WebcamLaunchStep(s, live, launch)
  }

  /** Without a server on the port: reuse a live handle, or start the server and check it after 3 s. */
  function WebcamLaunchStep(s: ManagerState, live: set<Pid>, launch: Launch): (r: (Reply, ManagerState))
  {
    if s.webcam.Handle? && s.webcam.pid in live then (Reply(true, "Webcam server is already running"), s)
    else match launch
      case LaunchRaised(e) => (Reply(false, e), s)
      case Launched(pid, alive, err) =>
        (if alive then Reply(true, "Webcam server started successfully")
         else Reply(false, "Failed to start webcam server: " + err),
         s.(webcam := Handle(pid)))
  }

  /**
   * The body of `start_webcam_server` with the placeholder handled: a server
   * answering on the port is reported as running whatever the reference holds.
   */
  function WebcamStartBody(s: ManagerState, probe: bool, live: set<Pid>, launch: Launch): (r: (Reply, ManagerState))
    ensures probe ==> r.0 == Reply(true, "Webcam server is already running") && RefRunning(r.1.webcam, live)
    ensures r.0.success && !probe ==> r.1.webcam.Handle?
    ensures r.1.processes == s.processes && r.1.signals == s.signals && r.1.lockHeld == s.lockHeld
    ensures RefRunning(s.webcam, live) && (probe || s.webcam.Handle?) ==> r == (Reply(true, "Webcam server is already running"), s)
  {
    if probe then
      (Reply(true, "Webcam server is already running"),
       if s.webcam.NoRef? || (s.webcam.Handle? && s.webcam.pid !in live) then s.(webcam := Sentinel) else s)
    else WebcamLaunchStep(s, live, launch)
  }

  /** `start_webcam_server` as written: it blocks if the calling thread already holds the lock. */
  function StartWebcamServerAsWritten(s: ManagerState, probe: bool, live: set<Pid>, launch: Launch): (r: (Outcome<Reply>, ManagerState))
  {
    if s.lockHeld then (BlocksForever, s)
    else var (reply, s') := WebcamStartBodyAsWritten(s, probe, live, launch); (Returns(reply), s')
  }

  /** The body of `stop_webcam_server` once the lock is held. */
  function WebcamStopBody(s: ManagerState, live: set<Pid>, exitsOnTerm: set<Pid>): (r: (Reply, ManagerState))
    ensures r.0.success <==> !(RefRunning(s.webcam, live) && s.webcam.Handle? && AnyAlive(s.processes, live))
    ensures r.0.success ==> r.1.webcam == NoRef
    ensures !r.0.success ==> r.1 == s
    ensures r.1.processes == s.processes && r.1.lockHeld == s.lockHeld
    ensures r.1.signals != s.signals ==>
      s.webcam.Handle? && s.webcam.pid in live && r.1.signals == s.signals + TerminateSignals(s.webcam.pid, true, s.webcam.pid in exitsOnTerm)
  {
    match s.webcam
    case NoRef => (Reply(true, "No webcam server is running"), s)
    case Sentinel => (Reply(true, "Webcam server reference reset"), s.(webcam := NoRef))
    case Handle(p) =>
      if p !in live then (Reply(true, "Webcam server was not running"), s.(webcam := NoRef))
      else if AnyAlive(s.processes, live) then (Reply(false, "Cannot stop webcam server while monitoring processes are active"), s)
      else (Reply(true, "Webcam server stopped successfully"),
            s.(webcam := NoRef, signals := s.signals + TerminateSignals(p, true, p in exitsOnTerm)))
  }

  function StopWebcamServerAsWritten(s: ManagerState, live: set<Pid>, exitsOnTerm: set<Pid>): (r: (Outcome<Reply>, ManagerState))
  {
    if s.lockHeld then (BlocksForever, s)
    else var (reply, s') := WebcamStopBody(s, live, exitsOnTerm); (Returns(reply), s')
  }

  // ---------------------------------------------------------------------------
  // Monitoring processes
  // ---------------------------------------------------------------------------

  /** A registered process that has exited is forgotten; `None` when a live one is registered. */
  function ReapDead(s: ManagerState, key: string, live: set<Pid>): Option<ManagerState>
  {
    if key in s.processes && s.processes[key] in live then None
    else Some(s.(processes := s.processes - {key}))
  }

  /** Spawning the script, registering it, and the start-up wait; the lock is released on return. */
  function SpawnWorker(s: ManagerState, monitoringType: string, userId: string, launch: WorkerLaunch): (r: (Outcome<Reply>, ManagerState))
    ensures r.0.Returns? && (r.0.value.success <==> launch.WorkerStarted? && SurvivesStartup(launch.exitTick))
    ensures r.1 == s.(lockHeld := false, processes :=
      if r.0.value.success then s.processes[Key(monitoringType, userId) := launch.pid]
      else if launch.WorkerStarted? then s.processes - {Key(monitoringType, userId)}
      else s.processes)
  {
    var key := Key(monitoringType, userId);
    match launch
    case WorkerRaised(e) => (Returns(Reply(false, e)), s.(lockHeld := false))
    case WorkerStarted(pid, exitTick) =>
      if SurvivesStartup(exitTick) then
        (Returns(Reply(true, Capitalize(monitoringType) + " monitoring started successfully")),
         s.(processes := s.processes[key := pid], lockHeld := false))
      else
        (Returns(Reply(false, "Failed to start " + monitoringType + " monitoring. Check " + LogPath(s.backendDir, key) + " for details.")),
         s.(processes := s.processes - {key}, lockHeld := false))
  }

  /** With a server answering on the port, a missing or dead reference becomes the placeholder. */
  function AdoptRunningServer(s: ManagerState, live: set<Pid>): ManagerState
  {
    if s.webcam.NoRef? || (s.webcam.Handle? && s.webcam.pid !in live) then s.(webcam := Sentinel) else s
  }

  /** A live process is registered under the key. */
  predicate RunningUnder(ps: map<string, Pid>, key: string, live: set<Pid>)
  {
    key in ps && ps[key] in live
  }

  /**
   * The webcam step of `start_monitoring` lets it go on: the port answers, the
   * handle is live, or a new server is still running after its 3 s wait.
   */
  predicate WebcamReady(s: ManagerState, probe: bool, live: set<Pid>, webcamLaunch: Launch)
  {
    probe || (s.webcam.Handle? && s.webcam.pid in live) || (webcamLaunch.Launched? && webcamLaunch.aliveAfterWait)
  }

  /**
   * What `start_monitoring` returns when the webcam server does not come up:
   * the message of `start_webcam_server`, prefixed once more.
   */
  function WebcamFailureReply(webcamLaunch: Launch): Reply
  {
    match webcamLaunch
    case LaunchRaised(e) => Reply(false, "Failed to start webcam server: " + e)
    case Launched(_, _, err) => Reply(false, "Failed to start webcam server: " + ("Failed to start webcam server: " + err))
  }

  /**
   * `start_monitoring` as written. With no server on the port it calls
   * `start_webcam_server`, which tries to take the lock this call already holds.
   */
  function StartMonitoringAsWritten(s: ManagerState, monitoringType: string, userId: string, probe: bool,
                                    live: set<Pid>, webcamLaunch: Launch, launch: WorkerLaunch): (r: (Outcome<Reply>, ManagerState))
  {
    if monitoringType !in ScriptTypes then (Returns(Reply(false, "Unknown monitoring type: " + monitoringType)), s)
    else if s.lockHeld then (BlocksForever, s)
    else
      var key := Key(monitoringType, userId);
      match ReapDead(s.(lockHeld := true), key, live)
      case None => (Returns(Reply(true, Capitalize(monitoringType) + " monitoring already active")), s)
      case Some(s1) =>
        if !probe then
          var (nested, s2) := StartWebcamServerAsWritten(s1, probe, live, webcamLaunch);
          (BlocksForever, s2)
        else SpawnWorker(AdoptRunningServer(s1, live), monitoringType, userId, launch)
  }

  /**
   * `start_monitoring` with the nested webcam start run under the lock already
   * held. Only known types are accepted; a live registration is reported and
   * left alone; a failed webcam start is reported with its message and
   * registers nothing; a script is registered exactly when it survives the
   * start-up wait. The lock is free again when the call returns.
   */
  function StartMonitoringSpec(s: ManagerState, monitoringType: string, userId: string, probe: bool,
                           live: set<Pid>, webcamLaunch: Launch, launch: WorkerLaunch): (r: (Outcome<Reply>, ManagerState))
    requires !s.lockHeld
    ensures r.0.Returns? && !r.1.lockHeld
    ensures monitoringType !in ScriptTypes ==> r == (Returns(Reply(false, "Unknown monitoring type: " + monitoringType)), s)
    ensures r.0.value.success <==>
      monitoringType in ScriptTypes &&
      ((Key(monitoringType, userId) in s.processes && s.processes[Key(monitoringType, userId)] in live) ||
       (Key(monitoringType, userId) in r.1.processes && launch.WorkerStarted? && r.1.processes[Key(monitoringType, userId)] == launch.pid))
    ensures monitoringType in ScriptTypes && RunningUnder(s.processes, Key(monitoringType, userId), live) ==>
      r == (Returns(Reply(true, Capitalize(monitoringType) + " monitoring already active")), s)
    ensures monitoringType in ScriptTypes && !r.0.value.success ==> Key(monitoringType, userId) !in r.1.processes
    ensures monitoringType in ScriptTypes && !RunningUnder(s.processes, Key(monitoringType, userId), live) ==>
      && (WebcamReady(s, probe, live, webcamLaunch) ==> (r.0.value.success <==> launch.WorkerStarted? && SurvivesStartup(launch.exitTick)))
      && (!WebcamReady(s, probe, live, webcamLaunch) ==> r.0.value == WebcamFailureReply(webcamLaunch))
      && (probe && !RefRunning(s.webcam, live) ==> r.1.webcam == Sentinel)
      && (!probe && !(s.webcam.Handle? && s.webcam.pid in live) && webcamLaunch.Launched? ==> r.1.webcam == Handle(webcamLaunch.pid))
    ensures RefRunning(s.webcam, live) && (probe || s.webcam.Handle?) ==> r.1.webcam == s.webcam
    ensures forall k :: k != Key(monitoringType, userId) ==> (k in r.1.processes <==> k in s.processes)
    ensures forall k :: k != Key(monitoringType, userId) && k in s.processes ==> r.1.processes[k] == s.processes[k]
    ensures r.1.signals == s.signals && r.1.backendDir == s.backendDir
  {
    if monitoringType !in ScriptTypes then (Returns(Reply(false, "Unknown monitoring type: " + monitoringType)), s)
    else
      var key := Key(monitoringType, userId);
      match ReapDead(s.(lockHeld := true), key, live)
      case None => (Returns(Reply(true, Capitalize(monitoringType) + " monitoring already active")), s)
      case Some(s1) => StartAfterReap(s1, monitoringType, userId, probe, live, webcamLaunch, launch)
  }

  /**
   * The rest of the corrected `start_monitoring` once no live process is
   * registered under the key: make sure the webcam server runs, then spawn.
   */
  function StartAfterReap(s1: ManagerState, monitoringType: string, userId: string, probe: bool,
                          live: set<Pid>, webcamLaunch: Launch, launch: WorkerLaunch): (r: (Outcome<Reply>, ManagerState))
    requires Key(monitoringType, userId) !in s1.processes
    ensures r.0.Returns? && !r.1.lockHeld
    ensures r.0.value.success <==>
      Key(monitoringType, userId) in r.1.processes && launch.WorkerStarted? && r.1.processes[Key(monitoringType, userId)] == launch.pid
    ensures !r.0.value.success ==> Key(monitoringType, userId) !in r.1.processes
    ensures WebcamReady(s1, probe, live, webcamLaunch) ==> (r.0.value.success <==> launch.WorkerStarted? && SurvivesStartup(launch.exitTick))
    ensures !WebcamReady(s1, probe, live, webcamLaunch) ==> r.0.value == WebcamFailureReply(webcamLaunch)
    ensures probe ==> r.1.webcam == (if RefRunning(s1.webcam, live) then s1.webcam else Sentinel)
    ensures !probe && s1.webcam.Handle? && s1.webcam.pid in live ==> r.1.webcam == s1.webcam
    ensures !probe && !(s1.webcam.Handle? && s1.webcam.pid in live) ==>
      r.1.webcam == (if webcamLaunch.Launched? then Handle(webcamLaunch.pid) else s1.webcam)
    ensures forall k :: k != Key(monitoringType, userId) ==> (k in r.1.processes <==> k in s1.processes)
    ensures forall k :: k != Key(monitoringType, userId) && k in s1.processes ==> r.1.processes[k] == s1.processes[k]
    ensures r.1.signals == s1.signals && r.1.backendDir == s1.backendDir
  {
    if !probe then
      var (webcam, s2) := WebcamStartBody(s1, probe, live, webcamLaunch);
      if !webcam.success then (Returns(Reply(false, "Failed to start webcam server: " + webcam.message)), s2.(lockHeld := false))
      else SpawnWorker(s2, monitoringType, userId, launch)
    else SpawnWorker(AdoptRunningServer(s1, live), monitoringType, userId, launch)
  }

  /** The body of `stop_monitoring` once the lock is held. */
  function StopMonitoringBody(s: ManagerState, monitoringType: string, userId: string, live: set<Pid>, exitsOnTerm: set<Pid>): (r: (Reply, ManagerState))
    ensures r.0.success
    ensures r.1.processes == s.processes - {Key(monitoringType, userId)}
    ensures r.1.webcam == s.webcam && r.1.lockHeld == s.lockHeld && r.1.backendDir == s.backendDir
    ensures r.1.signals == s.signals + (
      if Key(monitoringType, userId) in s.processes && s.processes[Key(monitoringType, userId)] in live
      then TerminateSignals(s.processes[Key(monitoringType, userId)], true, s.processes[Key(monitoringType, userId)] in exitsOnTerm)
      else [])
  {
    var key := Key(monitoringType, userId);
    if key !in s.processes then
      assert s.processes - {key} == s.processes;
      assert s.signals + [] == s.signals;
      (Reply(true, "No active " + monitoringType + " monitoring found for user " + userId), s)
    else
      var p := s.processes[key];
      if p !in live then
        assert s.signals + [] == s.signals;
        (Reply(true, Capitalize(monitoringType) + " monitoring was not running"), s.(processes := s.processes - {key}))
      else
        (Reply(true, Capitalize(monitoringType) + " monitoring stopped successfully"),
         s.(processes := s.processes - {key}, signals := s.signals + TerminateSignals(p, true, p in exitsOnTerm)))
  }

  /**
   * `stop_monitoring`: an unknown type is refused before the lock; otherwise it
   * waits for the lock (forever when its own thread holds it), and then always
   * succeeds, forgetting the key.
   */
  function StopMonitoringSpec(s: ManagerState, monitoringType: string, userId: string, live: set<Pid>, exitsOnTerm: set<Pid>): (r: (Outcome<Reply>, ManagerState))
    ensures monitoringType !in ScriptTypes ==> r == (Returns(Reply(false, "Unknown monitoring type: " + monitoringType)), s)
    ensures monitoringType in ScriptTypes ==> (r.0.Returns? <==> !s.lockHeld)
    ensures r.0 == BlocksForever ==> r.1 == s
    ensures monitoringType in ScriptTypes && !s.lockHeld ==>
      r.0.value.success && r.1.processes == s.processes - {Key(monitoringType, userId)} && r.1.webcam == s.webcam
  {
    if monitoringType !in ScriptTypes then (Returns(Reply(false, "Unknown monitoring type: " + monitoringType)), s)
    else if s.lockHeld then (BlocksForever, s)
    else var (reply, s') := StopMonitoringBody(s, monitoringType, userId, live, exitsOnTerm); (Returns(reply), s')
  }

  /**
   * `get_monitoring_status`: it takes no lock and changes nothing. A process
   * counts as monitoring only while it runs; the server counts as active when
   * the reference says so or the port answers.
   */
  function MonitoringStatusSpec(s: ManagerState, monitoringType: string, userId: string, live: set<Pid>, probe: bool): (st: Status)
    ensures st.webcamServerActive <==> RefRunning(s.webcam, live) || probe
    ensures st.userId == userId
    ensures st.MonitoringStatus? <==> monitoringType != "webcam"
    ensures st.MonitoringStatus? ==>
      st.monitoringType == monitoringType &&
      (st.isMonitoring <==> Key(monitoringType, userId) in s.processes && s.processes[Key(monitoringType, userId)] in live)
  {
    var active := RefRunning(s.webcam, live) || probe;
    if monitoringType == "webcam" then WebcamStatus(active, userId)
    else
      var key := Key(monitoringType, userId);
      MonitoringStatus(key in s.processes && s.processes[key] in live, active, monitoringType, userId)
  }

  /**
   * A key for which `cleanup` calls `stop_monitoring` and that call reaches the
   * lock: it has a `_`, and the part before it is a known script type.
   */
  predicate StopTakesLock(key: string)
  {
    SplitKey(key).Some? && SplitKey(key).value.0 in ScriptTypes
  }

  /**
   * `cleanup` as written: it holds the lock while calling `stop_monitoring` for
   * each key and then `stop_webcam_server`, and each of those waits for the lock.
   * Keys without `_` are skipped, and an unknown type is refused before the lock.
   */
  function CleanupAsWritten(s: ManagerState): (r: (Outcome<()>, ManagerState))
  {
    if s.lockHeld then (BlocksForever, s)
    else if (exists k :: k in s.processes && StopTakesLock(k)) || s.webcam != NoRef then (BlocksForever, s.(lockHeld := true))
    else (Returns(()), s)
  }

  // ---------------------------------------------------------------------------
  // Properties relating several calls
  // ---------------------------------------------------------------------------

  /** Starting the same monitoring twice starts one process: the second call only reports it. */
  lemma StartIsIdempotent(s: ManagerState, t: string, u: string, live: set<Pid>,
                          probe1: bool, webcam1: Launch, pid: Pid, probe2: bool, webcam2: Launch, launch2: WorkerLaunch)
    requires !s.lockHeld
    requires pid in live
    requires var r := StartMonitoringSpec(s, t, u, probe1, live, webcam1, WorkerStarted(pid, None)); r.0.value.success
    ensures var s1 := StartMonitoringSpec(s, t, u, probe1, live, webcam1, WorkerStarted(pid, None)).1;
      StartMonitoringSpec(s1, t, u, probe2, live, webcam2, launch2) ==
        (Returns(Reply(true, Capitalize(t) + " monitoring already active")), s1)
  {
    var k := Key(t, u);
    var s1 := StartMonitoringSpec(s, t, u, probe1, live, webcam1, WorkerStarted(pid, None)).1;
    assert k in s1.processes && s1.processes[k] in live;
  }

  /** A started process shows up in the status as monitoring for as long as it runs; stopping it clears that. */
  lemma StartStatusStop(s: ManagerState, t: string, u: string, probe: bool, live: set<Pid>, webcamLaunch: Launch,
                        pid: Pid, exitsOnTerm: set<Pid>)
    requires !s.lockHeld && t != "webcam" && pid in live
    requires StartMonitoringSpec(s, t, u, probe, live, webcamLaunch, WorkerStarted(pid, None)).0.value.success
    requires Key(t, u) !in s.processes
    ensures var s1 := StartMonitoringSpec(s, t, u, probe, live, webcamLaunch, WorkerStarted(pid, None)).1;
      && MonitoringStatusSpec(s1, t, u, live, probe).isMonitoring
      && var s2 := StopMonitoringSpec(s1, t, u, live, exitsOnTerm).1;
      && !MonitoringStatusSpec(s2, t, u, live, probe).isMonitoring
      && s2.signals == s1.signals + TerminateSignals(pid, true, pid in exitsOnTerm)
  {
    var s1 := StartMonitoringSpec(s, t, u, probe, live, webcamLaunch, WorkerStarted(pid, None)).1;
    assert Key(t, u) in s1.processes && s1.processes[Key(t, u)] == pid;
  }

  /** As written, starting monitoring while no server answers on the port never returns, and leaves the lock held. */
  lemma StartMonitoringAsWrittenBlocks(s: ManagerState, t: string, u: string, live: set<Pid>, webcamLaunch: Launch, launch: WorkerLaunch)
    requires !s.lockHeld && t in ScriptTypes
    requires !(Key(t, u) in s.processes && s.processes[Key(t, u)] in live)
    ensures StartMonitoringAsWritten(s, t, u, false, live, webcamLaunch, launch).0 == BlocksForever
    ensures StartMonitoringAsWritten(s, t, u, false, live, webcamLaunch, launch).1.lockHeld
  {
  }

  /** After such a call every further locking operation blocks too. */
  lemma HeldLockBlocksEverything(s: ManagerState, t: string, u: string, probe: bool, live: set<Pid>, exitsOnTerm: set<Pid>,
                                 webcamLaunch: Launch, launch: WorkerLaunch)
    requires s.lockHeld && t in ScriptTypes
    ensures StartMonitoringAsWritten(s, t, u, probe, live, webcamLaunch, launch).0 == BlocksForever
    ensures StopMonitoringSpec(s, t, u, live, exitsOnTerm).0 == BlocksForever
    ensures StartWebcamServerAsWritten(s, probe, live, webcamLaunch).0 == BlocksForever
    ensures StopWebcamServerAsWritten(s, live, exitsOnTerm).0 == BlocksForever
    ensures CleanupAsWritten(s).0 == BlocksForever
  {
  }

  /**
   * The corrected start reports a failed webcam start, whether `Popen` raised or
   * the server exited within its 3 s wait, with the webcam step's message, and
   * registers nothing for the key.
   */
  lemma WebcamFailureRegistersNothing(s: ManagerState, t: string, u: string, live: set<Pid>, webcamLaunch: Launch, launch: WorkerLaunch)
    requires !s.lockHeld && t in ScriptTypes
    requires !RunningUnder(s.processes, Key(t, u), live)
    requires !(s.webcam.Handle? && s.webcam.pid in live)
    requires !(webcamLaunch.Launched? && webcamLaunch.aliveAfterWait)
    ensures var r := StartMonitoringSpec(s, t, u, false, live, webcamLaunch, launch);
      && r.0 == Returns(WebcamFailureReply(webcamLaunch))
      && r.1.processes == s.processes - {Key(t, u)}
      && r.1.webcam == (if webcamLaunch.Launched? then Handle(webcamLaunch.pid) else s.webcam)
  {
  }

  /** As written, a placeholder reference makes `start_webcam_server` fail although the server answers. */
  lemma SentinelProbeFailsAsWritten(s: ManagerState, live: set<Pid>, launch: Launch)
    requires !s.lockHeld && s.webcam == Sentinel
    ensures StartWebcamServerAsWritten(s, true, live, launch).0 == Returns(Reply(false, "'bool' object has no attribute 'poll'"))
  {
  }

  /** As written, `cleanup` with anything the manager itself registered to clean up never returns. */
  lemma CleanupAsWrittenBlocks(s: ManagerState)
    requires !s.lockHeld && KeysValid(s.processes) && (s.processes != map[] || s.webcam != NoRef)
    ensures CleanupAsWritten(s).0 == BlocksForever
  {
    if s.webcam == NoRef {
      var k :| k in s.processes;
      assert StopTakesLock(k);
    }
  }

  // ---------------------------------------------------------------------------
  // The manager object, with the corrected operations
  // ---------------------------------------------------------------------------

  /** Every registered key splits back into a script type and a user id. */
  ghost predicate KeysValid(ps: map<string, Pid>)
  {
    forall k :: k in ps ==> SplitKey(k).Some? && SplitKey(k).value.0 in ScriptTypes
  }

  lemma KeysValidInsert(ps: map<string, Pid>, monitoringType: string, userId: string, pid: Pid)
    requires KeysValid(ps) && monitoringType in ScriptTypes
    ensures KeysValid(ps[Key(monitoringType, userId) := pid])
  {
    ScriptTypesHaveNoUnderscore(monitoringType);
    SplitKeyRecovers(monitoringType, userId);
  }

  lemma KeysValidRemove(ps: map<string, Pid>, key: string)
    requires KeysValid(ps)
    ensures KeysValid(ps - {key})
  {
  }

  /** Registering a key and then dropping it leaves the other keys as they were. */
  lemma RegisterThenDrop(ps: map<string, Pid>, key: string, pid: Pid)
    ensures ps[key := pid] - {key} == ps - {key}
  {
  }

  /** One `stop_monitoring` of `cleanup`: the key goes, a running process is sent `terminate`. */
  lemma StopOneKey(s: ManagerState, monitoringType: string, userId: string, live: set<Pid>, exitsOnTerm: set<Pid>)
    requires monitoringType in ScriptTypes && !s.lockHeld
    ensures var s' := StopMonitoringSpec(s, monitoringType, userId, live, exitsOnTerm).1;
      var key := Key(monitoringType, userId);
      && s'.processes == s.processes - {key}
      && s'.webcam == s.webcam
      && s.signals <= s'.signals
      && (key in s.processes && s.processes[key] in live ==> Terminate(s.processes[key]) in s'.signals)
  {
    var key := Key(monitoringType, userId);
    var s' := StopMonitoringSpec(s, monitoringType, userId, live, exitsOnTerm).1;
    if key in s.processes && s.processes[key] in live {
      assert s'.signals[|s.signals|] == Terminate(s.processes[key]);
    }
  }

  /** Every key `cleanup` has already stopped had its running process sent `terminate`. */
  ghost predicate StoppedSignalled(ps0: map<string, Pid>, ps: map<string, Pid>, live: set<Pid>, sigs: seq<Signal>)
  {
    forall k :: k in ps0 && k !in ps && ps0[k] in live ==> Terminate(ps0[k]) in sigs
  }

  lemma StoppedSignalledStep(ps0: map<string, Pid>, ps: map<string, Pid>, key: string, live: set<Pid>,
                             sigs: seq<Signal>, sigs': seq<Signal>)
    requires StoppedSignalled(ps0, ps, live, sigs)
    requires forall k :: k in ps ==> k in ps0 && ps[k] == ps0[k]
    requires sigs <= sigs'
    requires key in ps && ps[key] in live ==> Terminate(ps[key]) in sigs'
    ensures StoppedSignalled(ps0, ps - {key}, live, sigs')
  {
    forall k | k in ps0 && k !in ps - {key} && ps0[k] in live
      ensures Terminate(ps0[k]) in sigs'
    {
      if k in ps {
        assert k == key;
      } else {
        var i :| 0 <= i < |sigs| && sigs[i] == Terminate(ps0[k]);
        assert sigs'[i] == sigs[i];
      }
    }
  }

  lemma KeysShrink(ps: map<string, Pid>, key: string)
    requires key in ps
    ensures |(ps - {key}).Keys| < |ps.Keys|
  {
    assert (ps - {key}).Keys == ps.Keys - {key};
  }

  class ScriptManager {
    const backendDir: string
    var processes: map<string, Pid>
    var webcam: WebcamRef
    var signals: seq<Signal>

    /** Between calls the lock is free. */
    function State(): ManagerState
      reads this
    {
      ManagerState(backendDir, processes, webcam, false, signals)
    }

    ghost predicate Valid()
      reads this
    {
      KeysValid(processes)
    }

    constructor(backendDir: string)
      ensures Valid() && State() == ManagerState(backendDir, map[], NoRef, false, [])
    {
      this.backendDir := backendDir;
      processes := map[];
      webcam := NoRef;
      signals := [];
    }

    method StartWebcamServer(probe: bool, live: set<Pid>, launch: Launch) returns (r: Reply)
      requires Valid()
      modifies this
      ensures Valid()
      ensures (r, State()) == WebcamStartBody(old(State()), probe, live, launch)
    {
      if probe {
        if webcam.NoRef? || (webcam.Handle? && webcam.pid !in live) {
          webcam := Sentinel;
        }
        return Reply(true, "Webcam server is already running");
      }
      r := LaunchWebcam(live, launch);
    }

    method LaunchWebcam(live: set<Pid>, launch: Launch) returns (r: Reply)
      modifies this
      ensures (r, State()) == WebcamLaunchStep(old(State()), live, launch)
    {
      if webcam.Handle? && webcam.pid in live {
        return Reply(true, "Webcam server is already running");
      }
      match launch
      case LaunchRaised(e) =>
        r := Reply(false, e);
      case Launched(pid, alive, err) =>
        webcam := Handle(pid);
        r := if alive then Reply(true, "Webcam server started successfully")
             else Reply(false, "Failed to start webcam server: " + err);
    }

    method StopWebcamServer(live: set<Pid>, exitsOnTerm: set<Pid>) returns (r: Reply)
      requires Valid()
      modifies this
      ensures Valid()
      ensures (r, State()) == WebcamStopBody(old(State()), live, exitsOnTerm)
    {
      match webcam
      case NoRef =>
        r := Reply(true, "No webcam server is running");
      case Sentinel =>
        webcam := NoRef;
        r := Reply(true, "Webcam server reference reset");
      case Handle(p) =>
        if p !in live {
          webcam := NoRef;
          r := Reply(true, "Webcam server was not running");
        } else {
          var busy := FindAlive(processes, live);
          if busy {
            r := Reply(false, "Cannot stop webcam server while monitoring processes are active");
          } else {
            signals := signals + TerminateSignals(p, true, p in exitsOnTerm);
            webcam := NoRef;
            r := Reply(true, "Webcam server stopped successfully");
          }
        }
    }

    /** The start-up wait: poll every half second until the child exits or 10 s have passed. */
    static method AwaitStartup(exitTick: Option<nat>) returns (running: bool)
      ensures running <==> SurvivesStartup(exitTick)
    {
      var tick := 0;
      while AliveAt(exitTick, tick) && tick < StartupTicks
        invariant tick <= StartupTicks
        invariant exitTick.Some? ==> tick <= exitTick.value
        decreases StartupTicks - tick
      {
        tick := tick + 1;
      }
      running := AliveAt(exitTick, tick);
    }

    method StartMonitoring(monitoringType: string, userId: string, probe: bool, live: set<Pid>,
                           webcamLaunch: Launch, launch: WorkerLaunch) returns (r: Reply)
      requires Valid()
      modifies this
      ensures Valid()
      ensures (Returns(r), State()) == StartMonitoringSpec(old(State()), monitoringType, userId, probe, live, webcamLaunch, launch)
    {
      if monitoringType !in ScriptTypes {
        return Reply(false, "Unknown monitoring type: " + monitoringType);
      }
      var key := Key(monitoringType, userId);
      if key in processes {
        if processes[key] in live {
          return Reply(true, Capitalize(monitoringType) + " monitoring already active");
        }
      }
      processes := processes - {key};
      r := StartAfterReapStep(monitoringType, userId, probe, live, webcamLaunch, launch);
    }

    /** What `start_monitoring` does once no live process is registered under the key. */
    method StartAfterReapStep(monitoringType: string, userId: string, probe: bool, live: set<Pid>,
                              webcamLaunch: Launch, launch: WorkerLaunch) returns (r: Reply)
      requires Valid() && monitoringType in ScriptTypes && Key(monitoringType, userId) !in processes
      modifies this
      ensures Valid()
      ensures (Returns(r), State()) == StartAfterReap(old(State()).(lockHeld := true), monitoringType, userId, probe, live, webcamLaunch, launch)
    {
      if !probe {
        var webcamReply := StartWebcamServer(probe, live, webcamLaunch);
        if !webcamReply.success {
          return Reply(false, "Failed to start webcam server: " + webcamReply.message);
        }
      } else if webcam.NoRef? || (webcam.Handle? && webcam.pid !in live) {
        webcam := Sentinel;
      }
      ghost var s1 := State();
      r := Spawn(monitoringType, userId, launch);
      assert (Returns(r), State()) == SpawnWorker(s1.(lockHeld := true), monitoringType, userId, launch);
    }

    /** Spawning the script, registering it under its key, and the start-up wait. */
    method Spawn(monitoringType: string, userId: string, launch: WorkerLaunch) returns (r: Reply)
      requires Valid() && monitoringType in ScriptTypes
      modifies this
      ensures Valid()
      ensures (Returns(r), State()) == SpawnWorker(old(State()), monitoringType, userId, launch)
    {
      var key := Key(monitoringType, userId);
      ghost var s0 := State();
      match launch
      case WorkerRaised(e) =>
        r := Reply(false, e);
      case WorkerStarted(pid, exitTick) =>
        KeysValidInsert(processes, monitoringType, userId, pid);
        processes := processes[key := pid];
        var running := AwaitStartup(exitTick);
        if running {
          r := Reply(true, Capitalize(monitoringType) + " monitoring started successfully");
          assert State() == s0.(processes := s0.processes[key := pid]);
        } else {
          KeysValidRemove(processes, key);
          RegisterThenDrop(s0.processes, key, pid);
          processes := processes - {key};
          r := Reply(false, "Failed to start " + monitoringType + " monitoring. Check " + LogPath(backendDir, key) + " for details.");
          assert State() == s0.(processes := s0.processes - {key});
        }
    }

    method StopMonitoring(monitoringType: string, userId: string, live: set<Pid>, exitsOnTerm: set<Pid>) returns (r: Reply)
      requires Valid()
      modifies this
      ensures Valid()
      ensures (Returns(r), State()) == StopMonitoringSpec(old(State()), monitoringType, userId, live, exitsOnTerm)
    {
      if monitoringType !in ScriptTypes {
        return Reply(false, "Unknown monitoring type: " + monitoringType);
      }
      var key := Key(monitoringType, userId);
      ghost var s0 := State();
      if key !in processes {
        return Reply(true, "No active " + monitoringType + " monitoring found for user " + userId);
      }
      var p := processes[key];
      processes := processes - {key};
      if p !in live {
        assert State() == s0.(processes := s0.processes - {key});
        return Reply(true, Capitalize(monitoringType) + " monitoring was not running");
      }
      signals := signals + TerminateSignals(p, true, p in exitsOnTerm);
      assert State() == s0.(processes := s0.processes - {key}, signals := s0.signals + TerminateSignals(p, true, p in exitsOnTerm));
      r := Reply(true, Capitalize(monitoringType) + " monitoring stopped successfully");
    }

    method GetMonitoringStatus(monitoringType: string, userId: string, live: set<Pid>, probe: bool) returns (st: Status)
      ensures st == MonitoringStatusSpec(State(), monitoringType, userId, live, probe)
    {
      var active := RefRunning(webcam, live) || probe;
      if monitoringType == "webcam" {
        return WebcamStatus(active, userId);
      }
      var key := Key(monitoringType, userId);
      st := MonitoringStatus(key in processes && processes[key] in live, active, monitoringType, userId);
    }

    /**
     * `cleanup` with the nested stops run under the lock it holds: every
     * registered process is stopped (running ones are sent `terminate`), then the
     * webcam server, which nothing keeps alive any more.
     */
    method Cleanup(live: set<Pid>, exitsOnTerm: set<Pid>)
      requires Valid()
      modifies this
      ensures Valid()
      ensures processes == map[] && webcam == NoRef
      ensures old(signals) <= signals
      ensures forall k :: k in old(processes) && old(processes)[k] in live ==> Terminate(old(processes)[k]) in signals
      ensures old(webcam).Handle? && old(webcam).pid in live ==> Terminate(old(webcam).pid) in signals
    {
      var pending := processes.Keys;
      while pending != {}
        invariant Valid()
        invariant pending == processes.Keys
        invariant forall k :: k in processes ==> k in old(processes) && processes[k] == old(processes)[k]
        invariant webcam == old(webcam)
        invariant old(signals) <= signals
        invariant StoppedSignalled(old(processes), processes, live, signals)
        decreases |pending|
      {
        var key :| key in pending;
        var (t, u) := SplitKey(key).value;
        ghost var s := State();
        var _ := StopMonitoring(t, u, live, exitsOnTerm);
        StopOneKey(s, t, u, live, exitsOnTerm);
        assert Key(t, u) == key;
        StoppedSignalledStep(old(processes), s.processes, key, live, s.signals, signals);
        KeysShrink(s.processes, key);
        pending := processes.Keys;
      }
      ghost var before := signals;
      if webcam != NoRef {
        var _ := StopWebcamServer(live, exitsOnTerm);
        if old(webcam).Handle? && old(webcam).pid in live {
          assert Terminate(old(webcam).pid) == signals[|before|];
        }
      }
    }
  }
}

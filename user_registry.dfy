/**
 * The per-user bookkeeping that `StressMonitoringManager`,
 * `PostureMonitoringManager` and `CVSMonitoringManager` share: a dict from
 * user id to the detection script's process, the manager's own reference to
 * the webcam server process, and the signals the manager has sent.
 *
 * The three managers repeat the same code for registering, stopping and
 * reporting a user's process; the functions here state that code once, with
 * the subsystem's name as a parameter.
 */
module UserRegistry {
  import opened Common

  datatype Subsystem = Stress | Posture | Cvs

  function StartedMessage(sub: Subsystem): string
  {
    match sub
    case Stress => "Stress monitoring started successfully"
    case Posture => "Posture monitoring started successfully"
    case Cvs => "CVS monitoring started successfully"
  }

  function FailedPrefix(sub: Subsystem): string
  {
    match sub
    case Stress => "Failed to start stress monitoring: "
    case Posture => "Failed to start posture monitoring: "
    case Cvs => "Failed to start CVS monitoring: "
  }

  function StoppedMessage(sub: Subsystem): string
  {
    match sub
    case Stress => "Stress monitoring stopped successfully"
    case Posture => "Posture monitoring stopped successfully"
    case Cvs => "CVS monitoring stopped successfully"
  }

  datatype MgrState = MgrState(processes: map<string, Pid>, webcam: Option<Pid>, signals: seq<Signal>)

  /** What `get_monitoring_status` returns. */
  datatype UserStatus = UserStatus(isMonitoring: bool, webcamServerActive: bool, userId: string)

  /** `webcam_process and webcam_process.poll() is None`. */
  predicate WebcamLive(s: MgrState, live: set<Pid>)
  {
    s.webcam.Some? && s.webcam.value in live
  }

  /** The user has a registered process that is still running. */
  predicate Monitoring(s: MgrState, userId: string, live: set<Pid>)
  {
    userId in s.processes && s.processes[userId] in live
  }

  /**
   * The check that opens every start: `None` when the user's process is still
   * running ("Monitoring already active"); otherwise the state with an exited
   * process forgotten.
   */
  function ReapDead(s: MgrState, userId: string, live: set<Pid>): (r: Option<MgrState>)
    ensures r.None? <==> Monitoring(s, userId, live)
    ensures r.Some? ==> r.value == s.(processes := s.processes - {userId})
  {
    if userId in s.processes && s.processes[userId] in live then None
    else Some(s.(processes := s.processes - {userId}))
  }

  /**
   * Starting the user's detection script, registering it, and the check two
   * seconds later: a script that has already exited is forgotten again and
   * its standard error is reported.
   */
  function SpawnUser(s: MgrState, sub: Subsystem, userId: string, launch: Launch): (r: (Reply, MgrState))
    ensures r.0.success <==> launch.Launched? && launch.aliveAfterWait
    ensures r.0.success ==> r.1.processes == s.processes[userId := launch.pid]
    ensures launch.LaunchRaised? ==> r == (Reply(false, launch.error), s)
    ensures launch.Launched? && !launch.aliveAfterWait ==> r.1.processes == s.processes - {userId}
    ensures r.1.webcam == s.webcam && r.1.signals == s.signals
  {
    match launch
    case LaunchRaised(e) => (Reply(false, e), s)
    case Launched(pid, alive, err) =>
      if alive then (Reply(true, StartedMessage(sub)), s.(processes := s.processes[userId := pid]))
      else (Reply(false, FailedPrefix(sub) + err), s.(processes := s.processes - {userId}))
  }

  /**
   * Stopping a user's process: `terminate()`, up to 10 s of waiting, then
   * `kill()`; the entry is removed whether or not the process was running.
   */
  function StopUser(s: MgrState, sub: Subsystem, userId: string, live: set<Pid>, exitsOnTerm: set<Pid>): (r: (Reply, MgrState))
    ensures r.0.success
    ensures r.1.processes == s.processes - {userId}
    ensures r.1.webcam == s.webcam
    ensures userId in s.processes ==>
      r.1.signals == s.signals + TerminateSignals(s.processes[userId], s.processes[userId] in live, s.processes[userId] in exitsOnTerm)
    ensures userId !in s.processes ==> r == (Reply(true, "No active monitoring found"), s)
  {
    if userId !in s.processes then
      assert s.processes - {userId} == s.processes;
      (Reply(true, "No active monitoring found"), s)
    else
      var p := s.processes[userId];
      (Reply(true, StoppedMessage(sub)),
       s.(processes := s.processes - {userId}, signals := s.signals + TerminateSignals(p, p in live, p in exitsOnTerm)))
  }

  /** `get_monitoring_status`, which changes nothing. */
  function StatusOf(s: MgrState, userId: string, live: set<Pid>): (st: UserStatus)
    ensures st.isMonitoring <==> Monitoring(s, userId, live)
    ensures st.webcamServerActive <==> WebcamLive(s, live)
    ensures st.userId == userId
  {
    UserStatus(userId in s.processes && s.processes[userId] in live, s.webcam.Some? && s.webcam.value in live, userId)
  }

  /**
   * The last step of `cleanup`: a webcam reference, running or not, is
   * terminated (killed after 5 s) and dropped.
   */
  function ReleaseWebcam(s: MgrState, live: set<Pid>, exitsOnTerm: set<Pid>): (r: MgrState)
    ensures r.webcam.None? && r.processes == s.processes
    ensures s.webcam.Some? ==> r.signals == s.signals + TerminateSignals(s.webcam.value, s.webcam.value in live, s.webcam.value in exitsOnTerm)
    ensures s.webcam.None? ==> r == s
  {
    match s.webcam
    case None => s
    case Some(w) => s.(webcam := None, signals := s.signals + TerminateSignals(w, w in live, w in exitsOnTerm))
  }

  /** Reply and HTTP status of a route. */
  datatype RouteReply = RouteReply(status: nat, message: string)

  /** What a `/webcam/stop` route answers once the manager has been asked to stop the server. */
  function ManagerRouteReply(stopped: Reply): (r: RouteReply)
    ensures r.status == 200 <==> stopped.success
    ensures r.status in {200, 500} && r.message == stopped.message
  {
    if stopped.success then RouteReply(200, stopped.message) else RouteReply(500, stopped.message)
  }

  /** The refusal of the posture and CVS `/webcam/stop` routes while one of their own processes runs. */
  const RouteRefusal: RouteReply := RouteReply(400, "Cannot stop webcam server while monitoring processes are active")
}

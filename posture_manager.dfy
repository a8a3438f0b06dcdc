/**
 * `PostureMonitoringManager` (`posture_api.py`): one posture detection script
 * per user. It borrows the stress manager's webcam server while that runs,
 * publishes a server it starts itself to the stress manager, and refuses to
 * stop the server while a stress process runs.
 */
module PostureApi {
  import opened Common
  import opened UserRegistry
  import opened StressApi

  /**
   * `start_webcam_server`: the stress manager's running server first, then the
   * manager's own, then a new one, which is handed to the stress manager once
   * it is seen running after three seconds.
   */
  function PostureStartWebcamSpec(p: MgrState, st: MgrState, live: set<Pid>, launch: Launch): (r: (Reply, MgrState, MgrState))
    ensures r.0.success <==> WebcamLive(st, live) || WebcamLive(p, live) || (launch.Launched? && launch.aliveAfterWait)
    ensures WebcamLive(st, live) ==> r == (Reply(true, "Reusing existing webcam server"), p.(webcam := st.webcam), st)
    ensures !WebcamLive(st, live) && WebcamLive(p, live) ==> r == (Reply(true, "Webcam server is already running"), p, st)
    ensures r.0.success ==> WebcamLive(r.1, live) || r.1.webcam == Some(launch.pid)
    ensures r.2 == st || (r.0.success && r.2 == st.(webcam := r.1.webcam))
    ensures r.1.processes == p.processes && r.1.signals == p.signals
  {
    if WebcamLive(st, live) then (Reply(true, "Reusing existing webcam server"), p.(webcam := st.webcam), st)
    else if WebcamLive(p, live) then (Reply(true, "Webcam server is already running"), p, st)
    else match launch
      case LaunchRaised(e) => (Reply(false, e), p, st)
      case Launched(pid, alive, err) =>
        if alive then (Reply(true, "Webcam server started successfully"), p.(webcam := Some(pid)), st.(webcam := Some(pid)))
        else (Reply(false, "Failed to start webcam server: " + err), p.(webcam := Some(pid)), st)
  }

  /**
   * `stop_webcam_server` as written: after its own reference is set to `None`
   * it clears the stress manager's reference only if that equals `None`
   * already, so the stress manager keeps pointing at the stopped server.
   */
  function PostureStopWebcamAsWritten(p: MgrState, st: MgrState, live: set<Pid>, exitsOnTerm: set<Pid>): (r: (Reply, MgrState, MgrState))
  {
    match p.webcam
    case None => (Reply(true, "No webcam server is running"), p, st)
    case Some(w) =>
      if w !in live then (Reply(true, "Webcam server was not running"), p.(webcam := None), st)
      else if AnyAlive(st.processes, live) then (Reply(false, "Cannot stop webcam server while stress monitoring is active"), p, st)
      else
        var p' := p.(webcam := None, signals := p.signals + TerminateSignals(w, true, w in exitsOnTerm));
        (Reply(true, "Webcam server stopped successfully"), p', if st.webcam == p'.webcam then st.(webcam := None) else st)
  }

  /**
   * `stop_webcam_server` clearing the stress manager's reference when it names
   * the server just stopped. The stop is refused exactly while the server runs
   * and a stress process runs; its own processes are not looked at.
   */
  function PostureStopWebcamSpec(p: MgrState, st: MgrState, live: set<Pid>, exitsOnTerm: set<Pid>): (r: (Reply, MgrState, MgrState))
    ensures !r.0.success <==> WebcamLive(p, live) && AnyAlive(st.processes, live)
    ensures !r.0.success ==> r == (Reply(false, "Cannot stop webcam server while stress monitoring is active"), p, st)
    ensures r.0.success ==> r.1.webcam.None?
    ensures r.0.success && WebcamLive(p, live) ==> r.2.webcam != p.webcam
    ensures r.2.processes == st.processes && r.2.signals == st.signals && (r.2.webcam == st.webcam || r.2.webcam.None?)
    ensures r.1.processes == p.processes
    ensures r.1.signals == p.signals || (WebcamLive(p, live) && r.1.signals == p.signals + TerminateSignals(p.webcam.value, true, p.webcam.value in exitsOnTerm))
  {
    match p.webcam
    case None => (Reply(true, "No webcam server is running"), p, st)
    case Some(w) =>
      if w !in live then (Reply(true, "Webcam server was not running"), p.(webcam := None), st)
      else if AnyAlive(st.processes, live) then (Reply(false, "Cannot stop webcam server while stress monitoring is active"), p, st)
      else
        (Reply(true, "Webcam server stopped successfully"),
         p.(webcam := None, signals := p.signals + TerminateSignals(w, true, w in exitsOnTerm)),
         if st.webcam == Some(w) then st.(webcam := None) else st)
  }

  /** As written, stopping a server both managers share leaves the stress manager referring to it. */
  lemma PostureStopLeavesStaleStressReference(w: Pid)
    ensures var p := MgrState(map[], Some(w), []);
      var st := MgrState(map[], Some(w), []);
      var r := PostureStopWebcamAsWritten(p, st, {w}, {w});
      r.0.success && Terminate(w) in r.1.signals && r.2.webcam == Some(w)
  {
    var p := MgrState(map[], Some(w), []);
    var st := MgrState(map[], Some(w), []);
    assert !AnyAlive(st.processes, {w});
  }

  /** The corrected stop leaves no manager referring to the stopped server. */
  lemma PostureStopClearsSharedReference(p: MgrState, st: MgrState, live: set<Pid>, exitsOnTerm: set<Pid>)
    requires WebcamLive(p, live) && st.webcam == p.webcam
    ensures var r := PostureStopWebcamSpec(p, st, live, exitsOnTerm);
      r.0.success ==> r.1.webcam.None? && r.2.webcam.None?
  {
  }

  /** `start_posture_monitoring`. */
  function StartPostureSpec(p: MgrState, st: MgrState, userId: string, live: set<Pid>, webcamLaunch: Launch, launch: Launch): (r: (Reply, MgrState, MgrState))
  {
    match ReapDead(p, userId, live)
    case None => (Reply(true, "Monitoring already active"), p, st)
    case Some(p1) =>
      var (webcam, p2, st2) := PostureStartWebcamSpec(p1, st, live, webcamLaunch);
      if !webcam.success then (Reply(false, "Failed to start webcam server: " + webcam.message), p2, st2)
      else
        var (reply, p3) := SpawnUser(p2, Posture, userId, launch);
        (reply, p3, st2)
  }

  /**
   * The start succeeds exactly when the user's process was running, or a
   * webcam server is available and the new script survives its first two
   * seconds; the user is registered exactly on success, nothing else in the
   * registry changes, and a failed webcam start is reported with its reason.
   */
  lemma StartPostureOutcome(p: MgrState, st: MgrState, userId: string, live: set<Pid>, webcamLaunch: Launch, launch: Launch)
    ensures var r := StartPostureSpec(p, st, userId, live, webcamLaunch, launch);
      && (r.0.success <==>
            Monitoring(p, userId, live) ||
            ((WebcamLive(st, live) || WebcamLive(p, live) || (webcamLaunch.Launched? && webcamLaunch.aliveAfterWait)) &&
             launch.Launched? && launch.aliveAfterWait))
      && (r.0.success <==> userId in r.1.processes)
      && (forall u :: u != userId ==> (u in r.1.processes <==> u in p.processes))
      && (forall u :: u != userId && u in p.processes ==> r.1.processes[u] == p.processes[u])
      && r.2.processes == st.processes
      && (!Monitoring(p, userId, live) && webcamLaunch.LaunchRaised? && !WebcamLive(st, live) && !WebcamLive(p, live) ==>
            r.0 == Reply(false, "Failed to start webcam server: " + webcamLaunch.error))
  {
    StartPostureSucceeds(p, st, userId, live, webcamLaunch, launch);
    StartPostureRegisters(p, st, userId, live, webcamLaunch, launch);
  }

  lemma StartPostureSucceeds(p: MgrState, st: MgrState, userId: string, live: set<Pid>, webcamLaunch: Launch, launch: Launch)
    ensures var r := StartPostureSpec(p, st, userId, live, webcamLaunch, launch);
      && (r.0.success <==>
            Monitoring(p, userId, live) ||
            ((WebcamLive(st, live) || WebcamLive(p, live) || (webcamLaunch.Launched? && webcamLaunch.aliveAfterWait)) &&
             launch.Launched? && launch.aliveAfterWait))
      && (!Monitoring(p, userId, live) && webcamLaunch.LaunchRaised? && !WebcamLive(st, live) && !WebcamLive(p, live) ==>
            r.0 == Reply(false, "Failed to start webcam server: " + webcamLaunch.error))
  {
    match ReapDead(p, userId, live)
    case None =>
    case Some(p1) =>
      assert WebcamLive(p1, live) == WebcamLive(p, live);
  }

  lemma StartPostureRegisters(p: MgrState, st: MgrState, userId: string, live: set<Pid>, webcamLaunch: Launch, launch: Launch)
    ensures var r := StartPostureSpec(p, st, userId, live, webcamLaunch, launch);
      && (r.0.success <==> userId in r.1.processes)
      && (forall u :: u != userId ==> (u in r.1.processes <==> u in p.processes))
      && (forall u :: u != userId && u in p.processes ==> r.1.processes[u] == p.processes[u])
      && r.2.processes == st.processes
  {
    match ReapDead(p, userId, live)
    case None =>
    case Some(p1) =>
      var (webcam, p2, st2) := PostureStartWebcamSpec(p1, st, live, webcamLaunch);
      if webcam.success && launch.LaunchRaised? {
        assert userId !in p2.processes;
      }
  }

  /** A start that finds the stress manager's server running starts no server and shares that one. */
  lemma StartPostureReusesStressServer(p: MgrState, st: MgrState, userId: string, live: set<Pid>, webcamLaunch: Launch, launch: Launch)
    requires WebcamLive(st, live) && !Monitoring(p, userId, live)
    ensures var r := StartPostureSpec(p, st, userId, live, webcamLaunch, launch);
      r.1.webcam == st.webcam && r.2 == st
  {
  }

  function StopPostureSpec(p: MgrState, userId: string, live: set<Pid>, exitsOnTerm: set<Pid>): (r: (Reply, MgrState))
  {
    StopUser(p, Posture, userId, live, exitsOnTerm)
  }

  /**
   * The `/webcam/stop` route of the posture API: refused while a posture
   * process runs, otherwise the manager's stop.
   */
  function PostureStopWebcamRoute(p: MgrState, st: MgrState, live: set<Pid>, exitsOnTerm: set<Pid>): (r: (RouteReply, MgrState, MgrState))
  {
    if AnyAlive(p.processes, live) then (RouteRefusal, p, st)
    else
      var (reply, p', st') := PostureStopWebcamSpec(p, st, live, exitsOnTerm);
      (ManagerRouteReply(reply), p', st')
  }

  /**
   * Route and manager together: the server is stopped (answer 200) only when no
   * posture and no stress process runs, and afterwards the posture manager
   * holds no reference; a refusal changes nothing.
   */
  lemma PostureRouteGuardsRunningWorkers(p: MgrState, st: MgrState, live: set<Pid>, exitsOnTerm: set<Pid>)
    ensures var r := PostureStopWebcamRoute(p, st, live, exitsOnTerm);
      && (r.0.status == 200 <==> !AnyAlive(p.processes, live) && !(WebcamLive(p, live) && AnyAlive(st.processes, live)))
      && (r.0.status == 200 ==> r.1.webcam.None?)
      && (r.0.status != 200 ==> r.1 == p && r.2 == st)
  {
  }

  class PostureMonitoringManager {
    var processes: map<string, Pid>
    var webcam: Option<Pid>
    var signals: seq<Signal>
    /** The stress API's manager, whose webcam reference this one borrows and sets. */
    const stress: StressMonitoringManager

    function State(): MgrState
      reads this
    {
      MgrState(processes, webcam, signals)
    }

    constructor(stress: StressMonitoringManager)
      ensures State() == MgrState(map[], None, []) && this.stress == stress
    {
      processes := map[];
      webcam := None;
      signals := [];
      this.stress := stress;
    }

    method StartWebcamServer(live: set<Pid>, launch: Launch) returns (r: Reply)
      modifies this, stress
      ensures (r, State(), stress.State()) == PostureStartWebcamSpec(old(State()), old(stress.State()), live, launch)
    {
      if stress.webcam.Some? && stress.webcam.value in live {
        webcam := stress.webcam;
        return Reply(true, "Reusing existing webcam server");
      }
      if webcam.Some? && webcam.value in live {
        return Reply(true, "Webcam server is already running");
      }
      match launch
      case LaunchRaised(e) =>
        r := Reply(false, e);
      case Launched(pid, alive, err) =>
        webcam := Some(pid);
        if alive {
          stress.webcam := webcam;
          r := Reply(true, "Webcam server started successfully");
        } else {
          r := Reply(false, "Failed to start webcam server: " + err);
        }
    }

    method StopWebcamServer(live: set<Pid>, exitsOnTerm: set<Pid>) returns (r: Reply)
      modifies this, stress
      ensures (r, State(), stress.State()) == PostureStopWebcamSpec(old(State()), old(stress.State()), live, exitsOnTerm)
    {
      if webcam.None? {
        return Reply(true, "No webcam server is running");
      }
      var w := webcam.value;
      if w !in live {
        webcam := None;
        return Reply(true, "Webcam server was not running");
      }
      var busy := FindAlive(stress.processes, live);
      if busy {
        return Reply(false, "Cannot stop webcam server while stress monitoring is active");
      }
      signals := signals + TerminateSignals(w, true, w in exitsOnTerm);
      webcam := None;
      if stress.webcam == Some(w) {
        stress.webcam := None;
      }
      r := Reply(true, "Webcam server stopped successfully");
    }

    method StartPostureMonitoring(userId: string, live: set<Pid>, webcamLaunch: Launch, launch: Launch) returns (r: Reply)
      modifies this, stress
      ensures (r, State(), stress.State()) == StartPostureSpec(old(State()), old(stress.State()), userId, live, webcamLaunch, launch)
    {
      if userId in processes {
        if processes[userId] in live {
          return Reply(true, "Monitoring already active");
        }
        processes := processes - {userId};
      } else {
        assert processes - {userId} == processes;
      }
      var webcamReply := StartWebcamServer(live, webcamLaunch);
      if !webcamReply.success {
        return Reply(false, "Failed to start webcam server: " + webcamReply.message);
      }
      r := SpawnScript(userId, launch);
    }

    /** Starting the user's script, registering it, and the check two seconds later. */
    method SpawnScript(userId: string, launch: Launch) returns (r: Reply)
      modifies this
      ensures (r, State()) == SpawnUser(old(State()), Posture, userId, launch)
    {
      ghost var p2 := State();
      match launch
      case LaunchRaised(e) =>
        r := Reply(false, e);
      case Launched(pid, alive, err) =>
        processes := processes[userId := pid];
        if alive {
          r := Reply(true, "Posture monitoring started successfully");
        } else {
          processes := processes - {userId};
          assert processes == p2.processes - {userId};
          r := Reply(false, "Failed to start posture monitoring: " + err);
        }
      assert (r, State()) == SpawnUser(p2, Posture, userId, launch);
    }

    method StopPostureMonitoring(userId: string, live: set<Pid>, exitsOnTerm: set<Pid>) returns (r: Reply)
      modifies this
      ensures (r, State()) == StopPostureSpec(old(State()), userId, live, exitsOnTerm)
    {
      if userId !in processes {
        r := Reply(true, "No active monitoring found");
        assert (r, State()) == StopUser(old(State()), Posture, userId, live, exitsOnTerm);
        return;
      }
      var p := processes[userId];
      signals := signals + TerminateSignals(p, p in live, p in exitsOnTerm);
      processes := processes - {userId};
      r := Reply(true, "Posture monitoring stopped successfully");
      assert State() == old(State()).(processes := old(processes) - {userId}, signals := old(signals) + TerminateSignals(p, p in live, p in exitsOnTerm));
      assert (r, State()) == StopUser(old(State()), Posture, userId, live, exitsOnTerm);
    }

    method GetMonitoringStatus(userId: string, live: set<Pid>) returns (st: UserStatus)
      ensures st == StatusOf(State(), userId, live)
    {
      st := UserStatus(userId in processes && processes[userId] in live, webcam.Some? && webcam.value in live, userId);
    }

    /** Stops every user's process, then terminates the webcam reference whether or not a stress process uses it. */
    method Cleanup(live: set<Pid>, exitsOnTerm: set<Pid>)
      modifies this
      ensures processes == map[] && webcam == None
      ensures old(signals) <= signals
      ensures forall u :: u in old(processes) ==> Terminate(old(processes)[u]) in signals
      ensures old(webcam).Some? ==> Terminate(old(webcam).value) in signals
    {
      var pending := processes.Keys;
      while pending != {}
        invariant pending == processes.Keys
        invariant forall u :: u in processes ==> u in old(processes) && processes[u] == old(processes)[u]
        invariant webcam == old(webcam)
        invariant old(signals) <= signals
        invariant forall u :: u in old(processes) && u !in processes ==> Terminate(old(processes)[u]) in signals
        decreases |pending|
      {
        var userId :| userId in pending;
        ghost var before := signals;
        var _ := StopPostureMonitoring(userId, live, exitsOnTerm);
        assert Terminate(old(processes)[userId]) == signals[|before|];
        pending := processes.Keys;
      }
      if webcam.Some? {
        var w := webcam.value;
        signals := signals + TerminateSignals(w, w in live, w in exitsOnTerm);
        assert Terminate(w) in signals;
        webcam := None;
      }
    }
  }

  /** The `/webcam/stop` route: the refusal check over the manager's own processes, then the manager's stop. */
  method StopWebcamRoute(manager: PostureMonitoringManager, live: set<Pid>, exitsOnTerm: set<Pid>) returns (r: RouteReply)
    modifies manager, manager.stress
    ensures (r, manager.State(), manager.stress.State()) ==
      PostureStopWebcamRoute(old(manager.State()), old(manager.stress.State()), live, exitsOnTerm)
  {
    var active := FindAlive(manager.processes, live);
    if active {
      return RouteRefusal;
    }
    var reply := manager.StopWebcamServer(live, exitsOnTerm);
    r := ManagerRouteReply(reply);
  }
}

/**
 * `CVSMonitoringManager` (`cvs_api.py`): one blink detection script per user.
 * It borrows the posture manager's webcam server, else the stress manager's,
 * publishes a server it starts itself to both, and refuses to stop the server
 * while a posture or a stress process runs.
 */
module CvsApi {
  import opened Common
  import opened UserRegistry
  import opened StressApi
  import opened PostureApi

  /**
   * `start_webcam_server`: the posture manager's running server, then the
   * stress manager's, then its own, then a new one, which is handed to both
   * other managers once it is seen running.
   */
  function CvsStartWebcamSpec(c: MgrState, p: MgrState, st: MgrState, live: set<Pid>, launch: Launch): (r: (Reply, MgrState, MgrState, MgrState))
    ensures r.0.success <==> WebcamLive(p, live) || WebcamLive(st, live) || WebcamLive(c, live) || (launch.Launched? && launch.aliveAfterWait)
    ensures WebcamLive(p, live) ==> r == (Reply(true, "Reusing existing webcam server"), c.(webcam := p.webcam), p, st)
    ensures !WebcamLive(p, live) && WebcamLive(st, live) ==> r == (Reply(true, "Reusing existing webcam server"), c.(webcam := st.webcam), p, st)
    ensures !WebcamLive(p, live) && !WebcamLive(st, live) && WebcamLive(c, live) ==> r == (Reply(true, "Webcam server is already running"), c, p, st)
    ensures (r.2 == p && r.3 == st) || (r.0.success && r.2 == p.(webcam := r.1.webcam) && r.3 == st.(webcam := r.1.webcam))
    ensures r.1.processes == c.processes && r.1.signals == c.signals
  {
    if WebcamLive(p, live) then (Reply(true, "Reusing existing webcam server"), c.(webcam := p.webcam), p, st)
    else if WebcamLive(st, live) then (Reply(true, "Reusing existing webcam server"), c.(webcam := st.webcam), p, st)
    else if WebcamLive(c, live) then (Reply(true, "Webcam server is already running"), c, p, st)
    else match launch
      case LaunchRaised(e) => (Reply(false, e), c, p, st)
      case Launched(pid, alive, err) =>
        if alive then
          (Reply(true, "Webcam server started successfully"), c.(webcam := Some(pid)), p.(webcam := Some(pid)), st.(webcam := Some(pid)))
        else (Reply(false, "Failed to start webcam server: " + err), c.(webcam := Some(pid)), p, st)
  }

  /** The refusals of `stop_webcam_server`, posture first; `None` when nothing holds the server. */
  function CvsStopRefusal(p: MgrState, st: MgrState, live: set<Pid>): (r: Option<Reply>)
    ensures r.None? <==> !AnyAlive(p.processes, live) && !AnyAlive(st.processes, live)
  {
    if AnyAlive(p.processes, live) then Some(Reply(false, "Cannot stop webcam server while posture monitoring is active"))
    else if AnyAlive(st.processes, live) then Some(Reply(false, "Cannot stop webcam server while stress monitoring is active"))
    else None
  }

  /**
   * `stop_webcam_server` as written: the other managers' references are
   * compared with its own after that has become `None`, so they never change.
   */
  function CvsStopWebcamAsWritten(c: MgrState, p: MgrState, st: MgrState, live: set<Pid>, exitsOnTerm: set<Pid>): (r: (Reply, MgrState, MgrState, MgrState))
  {
    match c.webcam
    case None => (Reply(true, "No webcam server is running"), c, p, st)
    case Some(w) =>
      if w !in live then (Reply(true, "Webcam server was not running"), c.(webcam := None), p, st)
      else match CvsStopRefusal(p, st, live)
        case Some(refusal) => (refusal, c, p, st)
        case None =>
          var c' := c.(webcam := None, signals := c.signals + TerminateSignals(w, true, w in exitsOnTerm));
          (Reply(true, "Webcam server stopped successfully"), c',
           if p.webcam == c'.webcam then p.(webcam := None) else p,
           if st.webcam == c'.webcam then st.(webcam := None) else st)
  }

  /**
   * `stop_webcam_server` clearing every other reference to the server it
   * stopped. It is refused exactly while the server runs and a posture or a
   * stress process runs; its own processes are the route's concern.
   */
  function CvsStopWebcamSpec(c: MgrState, p: MgrState, st: MgrState, live: set<Pid>, exitsOnTerm: set<Pid>): (r: (Reply, MgrState, MgrState, MgrState))
    ensures !r.0.success <==> WebcamLive(c, live) && (AnyAlive(p.processes, live) || AnyAlive(st.processes, live))
    ensures !r.0.success ==> r.1 == c && r.2 == p && r.3 == st
    ensures r.0.success ==> r.1.webcam.None?
    ensures r.0.success && WebcamLive(c, live) ==> r.2.webcam != c.webcam && r.3.webcam != c.webcam
    ensures r.2.processes == p.processes && r.2.signals == p.signals && (r.2.webcam == p.webcam || r.2.webcam.None?)
    ensures r.3.processes == st.processes && r.3.signals == st.signals && (r.3.webcam == st.webcam || r.3.webcam.None?)
    ensures r.1.processes == c.processes
  {
    match c.webcam
    case None => (Reply(true, "No webcam server is running"), c, p, st)
    case Some(w) =>
      if w !in live then (Reply(true, "Webcam server was not running"), c.(webcam := None), p, st)
      else match CvsStopRefusal(p, st, live)
        case Some(refusal) => (refusal, c, p, st)
        case None =>
          (Reply(true, "Webcam server stopped successfully"),
           c.(webcam := None, signals := c.signals + TerminateSignals(w, true, w in exitsOnTerm)),
           if p.webcam == Some(w) then p.(webcam := None) else p,
           if st.webcam == Some(w) then st.(webcam := None) else st)
  }

  /** As written, stopping the server all three managers share leaves the other two referring to it. */
  lemma CvsStopLeavesStaleReferences(w: Pid)
    ensures var m := MgrState(map[], Some(w), []);
      var r := CvsStopWebcamAsWritten(m, m, m, {w}, {w});
      r.0.success && Terminate(w) in r.1.signals && r.2.webcam == Some(w) && r.3.webcam == Some(w)
  {
    var m := MgrState(map[], Some(w), []);
    assert !AnyAlive(m.processes, {w});
  }

  /** The corrected stop leaves no manager referring to the server it stopped. */
  lemma CvsStopClearsSharedReferences(c: MgrState, p: MgrState, st: MgrState, live: set<Pid>, exitsOnTerm: set<Pid>)
    requires WebcamLive(c, live) && p.webcam == c.webcam && st.webcam == c.webcam
    ensures var r := CvsStopWebcamSpec(c, p, st, live, exitsOnTerm);
      r.0.success ==> r.1.webcam.None? && r.2.webcam.None? && r.3.webcam.None?
  {
  }

  /**
   * What `start_cvs_monitoring` does after the webcam server is up, as written:
   * the script is started without a pipe for its standard error, so for a
   * script that has exited `communicate()` yields `None` and `None.decode()`
   * raises before the entry is removed.
   */
  function SpawnCvsAsWritten(c: MgrState, userId: string, launch: Launch): (r: (Reply, MgrState))
  {
    match launch
    case LaunchRaised(e) => (Reply(false, e), c)
    case Launched(pid, alive, _) =>
      if alive then (Reply(true, "CVS monitoring started successfully"), c.(processes := c.processes[userId := pid]))
      else (Reply(false, "'NoneType' object has no attribute 'decode'"), c.(processes := c.processes[userId := pid]))
  }

  function StartCvsAsWritten(c: MgrState, p: MgrState, st: MgrState, userId: string, live: set<Pid>, webcamLaunch: Launch, launch: Launch): (r: (Reply, MgrState, MgrState, MgrState))
  {
    match ReapDead(c, userId, live)
    case None => (Reply(true, "Monitoring already active"), c, p, st)
    case Some(c1) =>
      var (webcam, c2, p2, st2) := CvsStartWebcamSpec(c1, p, st, live, webcamLaunch);
      if !webcam.success then (Reply(false, "Failed to start webcam server: " + webcam.message), c2, p2, st2)
      else
        var (reply, c3) := SpawnCvsAsWritten(c2, userId, launch);
        (reply, c3, p2, st2)
  }

  /** `start_cvs_monitoring` with the script's standard error captured, as the other managers do. */
  function StartCvsSpec(c: MgrState, p: MgrState, st: MgrState, userId: string, live: set<Pid>, webcamLaunch: Launch, launch: Launch): (r: (Reply, MgrState, MgrState, MgrState))
  {
    match ReapDead(c, userId, live)
    case None => (Reply(true, "Monitoring already active"), c, p, st)
    case Some(c1) =>
      var (webcam, c2, p2, st2) := CvsStartWebcamSpec(c1, p, st, live, webcamLaunch);
      if !webcam.success then (Reply(false, "Failed to start webcam server: " + webcam.message), c2, p2, st2)
      else
        var (reply, c3) := SpawnUser(c2, Cvs, userId, launch);
        (reply, c3, p2, st2)
  }

  /** As written, a script that exits at once stays registered and its error text is lost. */
  lemma CvsFailedStartKeepsDeadEntry(c: MgrState, p: MgrState, st: MgrState, userId: string, live: set<Pid>, pid: Pid, stderr: string)
    requires WebcamLive(p, live) && !Monitoring(c, userId, live) && pid !in live
    ensures var r := StartCvsAsWritten(c, p, st, userId, live, LaunchRaised(""), Launched(pid, false, stderr));
      r.0 == Reply(false, "'NoneType' object has no attribute 'decode'") &&
      userId in r.1.processes && r.1.processes[userId] == pid && !StatusOf(r.1, userId, live).isMonitoring
  {
  }

  /**
   * The corrected start succeeds exactly when the user's process was running,
   * or some webcam server is available and the new script survives its first
   * two seconds; the user is registered exactly on success, and other users'
   * entries and the other managers' registries never change.
   */
  lemma StartCvsOutcome(c: MgrState, p: MgrState, st: MgrState, userId: string, live: set<Pid>, webcamLaunch: Launch, launch: Launch)
    ensures var r := StartCvsSpec(c, p, st, userId, live, webcamLaunch, launch);
      && (r.0.success <==>
            Monitoring(c, userId, live) ||
            ((WebcamLive(p, live) || WebcamLive(st, live) || WebcamLive(c, live) || (webcamLaunch.Launched? && webcamLaunch.aliveAfterWait)) &&
             launch.Launched? && launch.aliveAfterWait))
      && (r.0.success <==> userId in r.1.processes)
      && (forall u :: u != userId ==> (u in r.1.processes <==> u in c.processes))
      && (forall u :: u != userId && u in c.processes ==> r.1.processes[u] == c.processes[u])
      && r.2.processes == p.processes && r.3.processes == st.processes
  {
    StartCvsSucceeds(c, p, st, userId, live, webcamLaunch, launch);
    StartCvsRegisters(c, p, st, userId, live, webcamLaunch, launch);
  }

  lemma StartCvsSucceeds(c: MgrState, p: MgrState, st: MgrState, userId: string, live: set<Pid>, webcamLaunch: Launch, launch: Launch)
    ensures var r := StartCvsSpec(c, p, st, userId, live, webcamLaunch, launch);
      r.0.success <==>
        Monitoring(c, userId, live) ||
        ((WebcamLive(p, live) || WebcamLive(st, live) || WebcamLive(c, live) || (webcamLaunch.Launched? && webcamLaunch.aliveAfterWait)) &&
         launch.Launched? && launch.aliveAfterWait)
  {
    match ReapDead(c, userId, live)
    case None =>
    case Some(c1) =>
      assert WebcamLive(c1, live) == WebcamLive(c, live);
  }

  lemma StartCvsRegisters(c: MgrState, p: MgrState, st: MgrState, userId: string, live: set<Pid>, webcamLaunch: Launch, launch: Launch)
    ensures var r := StartCvsSpec(c, p, st, userId, live, webcamLaunch, launch);
      && (r.0.success <==> userId in r.1.processes)
      && (forall u :: u != userId ==> (u in r.1.processes <==> u in c.processes))
      && (forall u :: u != userId && u in c.processes ==> r.1.processes[u] == c.processes[u])
      && r.2.processes == p.processes && r.3.processes == st.processes
  {
    match ReapDead(c, userId, live)
    case None =>
    case Some(c1) =>
      var (webcam, c2, p2, st2) := CvsStartWebcamSpec(c1, p, st, live, webcamLaunch);
      if webcam.success && launch.LaunchRaised? {
        assert userId !in c2.processes;
      }
  }

  function StopCvsSpec(c: MgrState, userId: string, live: set<Pid>, exitsOnTerm: set<Pid>): (r: (Reply, MgrState))
  {
    StopUser(c, Cvs, userId, live, exitsOnTerm)
  }

  /** The `/webcam/stop` route of the CVS API: refused while a CVS process runs, otherwise the manager's stop. */
  function CvsStopWebcamRoute(c: MgrState, p: MgrState, st: MgrState, live: set<Pid>, exitsOnTerm: set<Pid>): (r: (RouteReply, MgrState, MgrState, MgrState))
  {
    if AnyAlive(c.processes, live) then (RouteRefusal, c, p, st)
    else
      var (reply, c', p', st') := CvsStopWebcamSpec(c, p, st, live, exitsOnTerm);
      (ManagerRouteReply(reply), c', p', st')
  }

  /**
   * Route and manager together stop a running server (answer 200 and a
   * terminate signal) only when no CVS, posture or stress process runs.
   */
  lemma CvsRouteGuardsRunningWorkers(c: MgrState, p: MgrState, st: MgrState, live: set<Pid>, exitsOnTerm: set<Pid>)
    requires WebcamLive(c, live)
    ensures var r := CvsStopWebcamRoute(c, p, st, live, exitsOnTerm);
      && (r.0.status == 200 <==> !AnyAlive(c.processes, live) && !AnyAlive(p.processes, live) && !AnyAlive(st.processes, live))
      && (r.0.status == 200 ==> r.1.webcam.None? && r.1.signals == c.signals + TerminateSignals(c.webcam.value, true, c.webcam.value in exitsOnTerm))
      && (r.0.status != 200 ==> r.1 == c && r.2 == p && r.3 == st)
  {
  }

  class CVSMonitoringManager {
    var processes: map<string, Pid>
    var webcam: Option<Pid>
    var signals: seq<Signal>
    const posture: PostureMonitoringManager
    const stress: StressMonitoringManager

    function State(): MgrState
      reads this
    {
      MgrState(processes, webcam, signals)
    }

    constructor(posture: PostureMonitoringManager, stress: StressMonitoringManager)
      ensures State() == MgrState(map[], None, []) && this.posture == posture && this.stress == stress
    {
      processes := map[];
      webcam := None;
      signals := [];
      this.posture := posture;
      this.stress := stress;
    }

    method StartWebcamServer(live: set<Pid>, launch: Launch) returns (r: Reply)
      modifies this, posture, stress
      ensures (r, State(), posture.State(), stress.State()) ==
        CvsStartWebcamSpec(old(State()), old(posture.State()), old(stress.State()), live, launch)
    {
      if posture.webcam.Some? && posture.webcam.value in live {
        webcam := posture.webcam;
        return Reply(true, "Reusing existing webcam server");
      }
      if stress.webcam.Some? && stress.webcam.value in live {
        webcam := stress.webcam;
        return Reply(true, "Reusing existing webcam server");
      }
      if webcam.Some? && webcam.value in live {
        return Reply(true, "Webcam server is already running");
      }
      match launch
      case LaunchRaised(e) =>
        r := Reply(false, e);
      case Launched(pid, alive, err) =>
        webcam := Some(pid);
        if alive {
          posture.webcam := webcam;
          stress.webcam := webcam;
          r := Reply(true, "Webcam server started successfully");
        } else {
          r := Reply(false, "Failed to start webcam server: " + err);
        }
    }

    method StopWebcamServer(live: set<Pid>, exitsOnTerm: set<Pid>) returns (r: Reply)
      modifies this, posture, stress
      ensures (r, State(), posture.State(), stress.State()) ==
        CvsStopWebcamSpec(old(State()), old(posture.State()), old(stress.State()), live, exitsOnTerm)
    {
      if webcam.None? {
        return Reply(true, "No webcam server is running");
      }
      var w := webcam.value;
      if w !in live {
        webcam := None;
        return Reply(true, "Webcam server was not running");
      }
      var postureBusy := FindAlive(posture.processes, live);
      if postureBusy {
        return Reply(false, "Cannot stop webcam server while posture monitoring is active");
      }
      var stressBusy := FindAlive(stress.processes, live);
      if stressBusy {
        return Reply(false, "Cannot stop webcam server while stress monitoring is active");
      }
      signals := signals + TerminateSignals(w, true, w in exitsOnTerm);
      webcam := None;
      if posture.webcam == Some(w) {
        posture.webcam := None;
      }
      if stress.webcam == Some(w) {
        stress.webcam := None;
      }
      r := Reply(true, "Webcam server stopped successfully");
    }

    method StartCvsMonitoring(userId: string, live: set<Pid>, webcamLaunch: Launch, launch: Launch) returns (r: Reply)
      modifies this, posture, stress
      ensures (r, State(), posture.State(), stress.State()) ==
        StartCvsSpec(old(State()), old(posture.State()), old(stress.State()), userId, live, webcamLaunch, launch)
    {
      if userId in processes {
        if processes[userId] in live {
          return Reply(true, "Monitoring already active");
        }
        processes := processes - {userId};
      } else {
        assert processes - {userId} == processes;
      }
      var webcamReply := StartWebcamServer(live, webcamLaunch);
      if !webcamReply.success {
        return Reply(false, "Failed to start webcam server: " + webcamReply.message);
      }
      r := SpawnScript(userId, launch);
    }

    /** Starting the user's script, registering it, and the check two seconds later. */
    method SpawnScript(userId: string, launch: Launch) returns (r: Reply)
      modifies this
      ensures (r, State()) == SpawnUser(old(State()), Cvs, userId, launch)
    {
      ghost var c2 := State();
      match launch
      case LaunchRaised(e) =>
        r := Reply(false, e);
      case Launched(pid, alive, err) =>
        processes := processes[userId := pid];
        if alive {
          r := Reply(true, "CVS monitoring started successfully");
        } else {
          processes := processes - {userId};
          assert processes == c2.processes - {userId};
          r := Reply(false, "Failed to start CVS monitoring: " + err);
        }
      assert (r, State()) == SpawnUser(c2, Cvs, userId, launch);
    }

    method StopCvsMonitoring(userId: string, live: set<Pid>, exitsOnTerm: set<Pid>) returns (r: Reply)
      modifies this
      ensures (r, State()) == StopCvsSpec(old(State()), userId, live, exitsOnTerm)
    {
      if userId !in processes {
        r := Reply(true, "No active monitoring found");
        assert (r, State()) == StopUser(old(State()), Cvs, userId, live, exitsOnTerm);
        return;
      }
      var p := processes[userId];
      signals := signals + TerminateSignals(p, p in live, p in exitsOnTerm);
      processes := processes - {userId};
      r := Reply(true, "CVS monitoring stopped successfully");
      assert State() == old(State()).(processes := old(processes) - {userId}, signals := old(signals) + TerminateSignals(p, p in live, p in exitsOnTerm));
      assert (r, State()) == StopUser(old(State()), Cvs, userId, live, exitsOnTerm);
    }

    method GetMonitoringStatus(userId: string, live: set<Pid>) returns (st: UserStatus)
      ensures st == StatusOf(State(), userId, live)
    {
      st := UserStatus(userId in processes && processes[userId] in live, webcam.Some? && webcam.value in live, userId);
    }

    /** Stops every user's process, then terminates the webcam reference whoever else uses it. */
    method Cleanup(live: set<Pid>, exitsOnTerm: set<Pid>)
      modifies this
      ensures processes == map[] && webcam == None
      ensures old(signals) <= signals
      ensures forall u :: u in old(processes) ==> Terminate(old(processes)[u]) in signals
      ensures old(webcam).Some? ==> Terminate(old(webcam).value) in signals
    {
      var pending := processes.Keys;
      while pending != {}
        invariant pending == processes.Keys
        invariant forall u :: u in processes ==> u in old(processes) && processes[u] == old(processes)[u]
        invariant webcam == old(webcam)
        invariant old(signals) <= signals
        invariant forall u :: u in old(processes) && u !in processes ==> Terminate(old(processes)[u]) in signals
        decreases |pending|
      {
        var userId :| userId in pending;
        ghost var before := signals;
        var _ := StopCvsMonitoring(userId, live, exitsOnTerm);
        assert Terminate(old(processes)[userId]) == signals[|before|];
        pending := processes.Keys;
      }
      if webcam.Some? {
        var w := webcam.value;
        signals := signals + TerminateSignals(w, w in live, w in exitsOnTerm);
        assert Terminate(w) in signals;
        webcam := None;
      }
    }
  }

  /** The `/webcam/stop` route: the refusal check over the manager's own processes, then the manager's stop. */
  method StopWebcamRoute(manager: CVSMonitoringManager, live: set<Pid>, exitsOnTerm: set<Pid>) returns (r: RouteReply)
    modifies manager, manager.posture, manager.stress
    ensures (r, manager.State(), manager.posture.State(), manager.stress.State()) ==
      CvsStopWebcamRoute(old(manager.State()), old(manager.posture.State()), old(manager.stress.State()), live, exitsOnTerm)
  {
    var active := FindAlive(manager.processes, live);
    if active {
      return RouteRefusal;
    }
    var reply := manager.StopWebcamServer(live, exitsOnTerm);
    r := ManagerRouteReply(reply);
  }
}

/**
 * `StressMonitoringManager` (`stress_api.py`): one stress detection script per
 * user and the manager's own webcam server process, which it reuses while it
 * runs and otherwise starts afresh.
 */
module StressApi {
  import opened Common
  import opened UserRegistry

  /**
   * `start_webcam_server`, which answers with a bare boolean: a running own
   * server is reused; otherwise a new one is started and reported running or
   * not after three seconds. A reference is kept to a server that failed.
   */
  function StartWebcamSpec(s: MgrState, live: set<Pid>, launch: Launch): (r: (bool, MgrState))
    ensures WebcamLive(s, live) ==> r == (true, s)
    ensures !WebcamLive(s, live) ==>
      (r.0 <==> launch.Launched? && launch.aliveAfterWait) &&
      r.1.webcam == (if launch.Launched? then Some(launch.pid) else s.webcam)
    ensures r.1.processes == s.processes && r.1.signals == s.signals
  {
    if WebcamLive(s, live) then (true, s)
    else match launch
      case LaunchRaised(_) => (false, s)
      case Launched(pid, alive, _) => (alive, s.(webcam := Some(pid)))
  }

  /**
   * `start_stress_monitoring`: a running process is reported and left alone; an
   * exited one is forgotten; then the webcam server and the script are started.
   */
  function StartStressSpec(s: MgrState, userId: string, live: set<Pid>, webcamLaunch: Launch, launch: Launch): (r: (Reply, MgrState))
  {
    match ReapDead(s, userId, live)
    case None => (Reply(true, "Monitoring already active"), s)
    case Some(s1) =>
      var (webcamOk, s2) := StartWebcamSpec(s1, live, webcamLaunch);
      if !webcamOk then (Reply(false, "Failed to start webcam server"), s2)
      else SpawnUser(s2, Stress, userId, launch)
  }

  function StopStressSpec(s: MgrState, userId: string, live: set<Pid>, exitsOnTerm: set<Pid>): (r: (Reply, MgrState))
  {
    StopUser(s, Stress, userId, live, exitsOnTerm)
  }

  /**
   * The start reports success exactly when the user's process was already
   * running, or when the webcam server is (or comes) up and the new script is
   * still running after two seconds; only then is the user registered, and
   * other users' entries never change.
   */
  lemma StartStressOutcome(s: MgrState, userId: string, live: set<Pid>, webcamLaunch: Launch, launch: Launch)
    ensures var r := StartStressSpec(s, userId, live, webcamLaunch, launch);
      && (r.0.success <==>
            Monitoring(s, userId, live) ||
            ((WebcamLive(s, live) || (webcamLaunch.Launched? && webcamLaunch.aliveAfterWait)) &&
             launch.Launched? && launch.aliveAfterWait))
      && (r.0.success <==> userId in r.1.processes)
      && (forall u :: u != userId ==> (u in r.1.processes <==> u in s.processes))
      && (forall u :: u != userId && u in s.processes ==> r.1.processes[u] == s.processes[u])
      && r.1.signals == s.signals
  {
    var r := StartStressSpec(s, userId, live, webcamLaunch, launch);
    match ReapDead(s, userId, live)
    case None =>
    case Some(s1) =>
      var (ok, s2) := StartWebcamSpec(s1, live, webcamLaunch);
      assert WebcamLive(s1, live) == WebcamLive(s, live);
      if !ok {
        assert userId !in r.1.processes;
      } else if launch.LaunchRaised? {
        assert userId !in s2.processes;
      }
  }

  /** A second start while the first process runs changes nothing and starts nothing. */
  lemma StartStressIdempotent(s: MgrState, userId: string, live: set<Pid>, webcamLaunch: Launch, launch: Launch,
                              webcamLaunch2: Launch, launch2: Launch)
    requires launch.Launched? && launch.pid in live
    ensures var s1 := StartStressSpec(s, userId, live, webcamLaunch, launch).1;
      StartStressSpec(s, userId, live, webcamLaunch, launch).0.success ==>
        StartStressSpec(s1, userId, live, webcamLaunch2, launch2) == (Reply(true, "Monitoring already active"), s1)
  {
    var s1 := StartStressSpec(s, userId, live, webcamLaunch, launch).1;
    StartStressOutcome(s, userId, live, webcamLaunch, launch);
    if StartStressSpec(s, userId, live, webcamLaunch, launch).0.success {
      assert Monitoring(s1, userId, live);
    }
  }

  /** After a stop the user is no longer monitored, whatever happened to the process. */
  lemma StopStressEndsMonitoring(s: MgrState, userId: string, live: set<Pid>, exitsOnTerm: set<Pid>)
    ensures var r := StopStressSpec(s, userId, live, exitsOnTerm);
      r.0.success && !StatusOf(r.1, userId, live).isMonitoring &&
      StatusOf(r.1, userId, live).webcamServerActive == StatusOf(s, userId, live).webcamServerActive
  {
  }

  class StressMonitoringManager {
    var processes: map<string, Pid>
    var webcam: Option<Pid>
    var signals: seq<Signal>

    function State(): MgrState
      reads this
    {
      MgrState(processes, webcam, signals)
    }

    constructor()
      ensures State() == MgrState(map[], None, [])
    {
      processes := map[];
      webcam := None;
      signals := [];
    }

    method StartWebcamServer(live: set<Pid>, launch: Launch) returns (ok: bool)
      modifies this
      ensures (ok, State()) == StartWebcamSpec(old(State()), live, launch)
    {
      if webcam.Some? && webcam.value in live {
        return true;
      }
      match launch
      case LaunchRaised(_) =>
        ok := false;
      case Launched(pid, alive, _) =>
        webcam := Some(pid);
        ok := alive;
    }

    method StartStressMonitoring(userId: string, live: set<Pid>, webcamLaunch: Launch, launch: Launch) returns (r: Reply)
      modifies this
      ensures (r, State()) == StartStressSpec(old(State()), userId, live, webcamLaunch, launch)
    {
      if userId in processes {
        if processes[userId] in live {
          return Reply(true, "Monitoring already active");
        }
        processes := processes - {userId};
      } else {
        assert processes - {userId} == processes;
      }
      var webcamOk := StartWebcamServer(live, webcamLaunch);
      if !webcamOk {
        return Reply(false, "Failed to start webcam server");
      }
      r := SpawnScript(userId, launch);
    }

    /** Starting the user's script, registering it, and the check two seconds later. */
    method SpawnScript(userId: string, launch: Launch) returns (r: Reply)
      modifies this
      ensures (r, State()) == SpawnUser(old(State()), Stress, userId, launch)
    {
      ghost var s2 := State();
      match launch
      case LaunchRaised(e) =>
        r := Reply(false, e);
      case Launched(pid, alive, err) =>
        processes := processes[userId := pid];
        if alive {
          r := Reply(true, "Stress monitoring started successfully");
        } else {
          processes := processes - {userId};
          assert processes == s2.processes - {userId};
          r := Reply(false, "Failed to start stress monitoring: " + err);
        }
      assert (r, State()) == SpawnUser(s2, Stress, userId, launch);
    }

    method StopStressMonitoring(userId: string, live: set<Pid>, exitsOnTerm: set<Pid>) returns (r: Reply)
      modifies this
      ensures (r, State()) == StopStressSpec(old(State()), userId, live, exitsOnTerm)
    {
      if userId !in processes {
        r := Reply(true, "No active monitoring found");
        assert (r, State()) == StopUser(old(State()), Stress, userId, live, exitsOnTerm);
        return;
      }
      var p := processes[userId];
      signals := signals + TerminateSignals(p, p in live, p in exitsOnTerm);
      processes := processes - {userId};
      r := Reply(true, "Stress monitoring stopped successfully");
      assert State() == old(State()).(processes := old(processes) - {userId}, signals := old(signals) + TerminateSignals(p, p in live, p in exitsOnTerm));
      assert (r, State()) == StopUser(old(State()), Stress, userId, live, exitsOnTerm);
    }

    method GetMonitoringStatus(userId: string, live: set<Pid>) returns (st: UserStatus)
      ensures st == StatusOf(State(), userId, live)
    {
      st := UserStatus(userId in processes && processes[userId] in live, webcam.Some? && webcam.value in live, userId);
    }

    /** Stops every user's process, then terminates and drops the webcam reference. */
    method Cleanup(live: set<Pid>, exitsOnTerm: set<Pid>)
      modifies this
      ensures processes == map[] && webcam == None
      ensures old(signals) <= signals
      ensures forall u :: u in old(processes) ==> Terminate(old(processes)[u]) in signals
      ensures old(webcam).Some? ==> Terminate(old(webcam).value) in signals
    {
      var pending := processes.Keys;
      while pending != {}
        invariant pending == processes.Keys
        invariant forall u :: u in processes ==> u in old(processes) && processes[u] == old(processes)[u]
        invariant webcam == old(webcam)
        invariant old(signals) <= signals
        invariant forall u :: u in old(processes) && u !in processes ==> Terminate(old(processes)[u]) in signals
        decreases |pending|
      {
        var userId :| userId in pending;
        ghost var before := signals;
        var _ := StopStressMonitoring(userId, live, exitsOnTerm);
        assert Terminate(old(processes)[userId]) == signals[|before|];
        pending := processes.Keys;
      }
      if webcam.Some? {
        var w := webcam.value;
        signals := signals + TerminateSignals(w, w in live, w in exitsOnTerm);
        assert Terminate(w) in signals;
        webcam := None;
      }
    }
  }
}

/**
 * `AppiumServerManager`: the object callers hold. Its one mutable field is
 * the handle of the server process it launched itself. Every method takes
 * the environment's answers as its first arguments, followed by the
 * source's own parameters with the source's defaults.
 */
module ServerManager {
  import opened Wrappers
  import opened Probe
  import opened Launch
  import opened Lifecycle

  /** The endpoint a manager uses when none is given. */
  const DefaultHost: string := "localhost"
  const DefaultPort: int := 4723

  /** What `get_server_info` reports. */
  datatype ServerInfo = ServerInfo(
    host: string,
    port: int,
    serverUrl: string,
    isRunning: bool,
    managedProcess: bool,
    processId: Option<int>)

  /** The error `start_appium_server` raises when the server cannot be made ready. */
  datatype StartupError = FailedToStart(host: string, port: int)

  class AppiumServerManager {
    const host: string
    const port: int
    const serverUrl: string := ServerUrl(host, port)
    const statusUrl: string := serverUrl + "/wd/hub/status"
    /** The process this manager launched, if any. */
    var appiumProcess: Option<Process>

    /** Construction only records the endpoint; nothing is probed or launched. */
    constructor (host: string := DefaultHost, port: int := DefaultPort)
      ensures this.host == host && this.port == port
      ensures serverUrl == ServerUrl(host, port) && statusUrl == serverUrl + "/wd/hub/status"
      ensures appiumProcess == None
    {
      this.host := host;
      this.port := port;
      appiumProcess := None;
    }

    /** `is_server_running`: tries the health URLs in order, then the TCP
        connect. Every exception ends in "not running". */
    method IsServerRunning(probe: ProbeRound) returns (running: bool)
      ensures running == Detects(host, port, probe)
    {
      var endpoints := HealthUrls(host, port);
      ghost var answers := Answers(probe.get, endpoints);
      var i := 0;
      while i < |endpoints|
        invariant 0 <= i <= |endpoints|
        invariant ProbeChain(answers[i..], probe.connect) == ProbeChain(answers, probe.connect)
      {
        assert answers[i..][1..] == answers[i + 1..];
        match probe.get(endpoints[i]) {
          case Response(status) =>
            if 200 <= status < 300 {
              return true;
            }
          case RequestFailed =>
          case Unexpected =>
            return false;
        }
        i := i + 1;
      }
      match probe.connect {
        case ConnectEx(code) => running := code == 0;
        case SocketRaised => running := false;
      }
    }

    /** `start_server(timeout)`: launch, then poll every two seconds while
        elapsed < timeout; success keeps the new handle, a dead child clears
        it, a timeout stops the child again. */
    method StartServer(env: StartEnv, timeout: int := DefaultTimeout) returns (ok: bool)
      requires Supplied(timeout, env)
      modifies this
      ensures Outcome(ok, appiumProcess) == StartSpec(host, port, old(appiumProcess), timeout, env)
    {
      var cmd := LaunchCommand(host, port);
      match env.spawn(cmd) {
        case ExecutableNotFound =>
          return false;
        case LaunchRaised =>
          return false;
        case Spawned(pid) =>
          appiumProcess := Some(Process(pid));
          var elapsed := 0;
          var round := 0;
          while elapsed < timeout
            invariant elapsed == WaitInterval * round
            invariant round <= Budget(timeout)
            invariant appiumProcess == Some(Process(pid))
            invariant PollLoop(host, port, env.polls, round, timeout) == PollLoop(host, port, env.polls, 0, timeout)
            decreases timeout - elapsed
          {
            ProbeTimes(timeout, round);
            var running := IsServerRunning(env.polls[round].probe);
            if running {
              return true;
            }
            elapsed := elapsed + WaitInterval;
            if env.polls[round].exited {
              appiumProcess := None;
              return false;
            }
            round := round + 1;
          }
          var stopped := StopServer(env.cleanup);
          return false;
      }
    }

    /** `stop_server`: stops only a process this manager launched. */
    method StopServer(outcome: StopOutcome) returns (ok: bool)
      modifies this
      ensures Outcome(ok, appiumProcess) == StopSpec(old(appiumProcess), outcome)
    {
      if appiumProcess.None? {
        return true;
      }
      match outcome {
        case StopRaised =>
          ok := false;
        case ExitsOnTerm =>
          appiumProcess := None;
          ok := true;
        case ExitsOnKill =>
          appiumProcess := None;
          ok := true;
      }
    }

    /** `ensure_server_running(start_timeout)`. */
    method EnsureServerRunning(probe: ProbeRound, env: StartEnv, startTimeout: int := DefaultTimeout) returns (ok: bool)
      requires Supplied(startTimeout, env)
      modifies this
      ensures Outcome(ok, appiumProcess) == EnsureSpec(host, port, old(appiumProcess), startTimeout, probe, env)
    {
      var running := IsServerRunning(probe);
      if running {
        return true;
      }
      ok := StartServer(env, startTimeout);
    }

    /** `get_server_info`: a snapshot built from a fresh probe and the handle. */
    method GetServerInfo(probe: ProbeRound) returns (info: ServerInfo)
      ensures info.host == host && info.port == port && info.serverUrl == ServerUrl(host, port)
      ensures info.isRunning == Detects(host, port, probe)
      ensures info.managedProcess <==> appiumProcess.Some?
      ensures info.managedProcess <==> info.processId.Some?
      ensures info.processId.Some? ==> appiumProcess == Some(Process(info.processId.value))
    {
      var running := IsServerRunning(probe);
      info := ServerInfo(
        host, port, serverUrl, running,
        appiumProcess.Some?,
        if appiumProcess.Some? then Some(appiumProcess.value.pid) else None);
    }

    /** `restart_server(timeout)`. */
    method RestartServer(outcome: StopOutcome, env: StartEnv, timeout: int := DefaultTimeout) returns (ok: bool)
      requires Supplied(timeout, env)
      modifies this
      ensures Outcome(ok, appiumProcess) == RestartSpec(host, port, old(appiumProcess), timeout, outcome, env)
    {
      if appiumProcess.Some? {
        var stopped := StopServer(outcome);
        if !stopped {
          return false;
        }
      }
      ok := StartServer(env, timeout);
    }

    /** `__enter__`: ensures the server with the default timeout, ignores
        whether that worked, and hands back the manager itself. */
    method Enter(probe: ProbeRound, env: StartEnv) returns (self: AppiumServerManager)
      requires Supplied(DefaultTimeout, env)
      modifies this
      ensures self == this
      ensures appiumProcess == EnsureSpec(host, port, old(appiumProcess), DefaultTimeout, probe, env).handle
    {
      var ready := EnsureServerRunning(probe, env);
      self := this;
    }

    /** `__exit__`: stops the server, ignores whether that worked, and does
        not suppress an exception leaving the scope. */
    method Exit(outcome: StopOutcome) returns (suppress: bool)
      modifies this
      ensures !suppress
      ensures appiumProcess == StopSpec(old(appiumProcess), outcome).handle
    {
      var stopped := StopServer(outcome);
      suppress := false;
    }
  }

  /** `start_appium_server`: a new manager for the endpoint, made ready by
      `ensure_server_running`; a failure becomes the raised error. */
  method StartAppiumServer(probe: ProbeRound, env: StartEnv,
                           host: string := DefaultHost, port: int := DefaultPort, timeout: int := DefaultTimeout)
    returns (r: Result<AppiumServerManager, StartupError>)
    requires Supplied(timeout, env)
    ensures r.Failure? <==> !EnsureSpec(host, port, None, timeout, probe, env).ok
    ensures r.Failure? ==> r.error == FailedToStart(host, port)
    ensures r.Success? ==> fresh(r.value) && r.value.host == host && r.value.port == port &&
                           r.value.appiumProcess == EnsureSpec(host, port, None, timeout, probe, env).handle
  {
    var manager := new AppiumServerManager(host, port);
    var ready := manager.EnsureServerRunning(probe, env, timeout);
    if !ready {
      return Failure(FailedToStart(host, port));
    }
    r := Success(manager);
  }

  /** `is_appium_running`: the probe of a fresh manager for the endpoint. */
  method IsAppiumRunning(probe: ProbeRound, host: string := DefaultHost, port: int := DefaultPort) returns (running: bool)
    ensures running == Detects(host, port, probe)
  {
    var manager := new AppiumServerManager(host, port);
    running := manager.IsServerRunning(probe);
  }
}

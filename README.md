# Appium server manager, modelled in Dafny

This project models `AppiumServerManager`, the component of the Gmail/Appium
demo that starts, probes, stops and restarts a local Appium server. Its
state is a single field, `appium_process`: the server process this manager
launched itself, or `None`.

Every interaction with the outside world is an oracle value passed in as data:

- `Probe.ProbeRound` answers each HTTP GET per URL and gives the TCP `connect_ex` result.
- `Lifecycle.StartEnv` holds three things:
  - the launcher, asked with the exact command line;
  - one `PollRound` per start-up round: the probe, then whether the child has exited after the sleep;
  - how the clean-up stop goes.
- `Lifecycle.StopOutcome` says how a stop goes: exit on SIGTERM, SIGKILL after the grace period, or an exception.

Modules:

- `Decimal`: `str(int)` and a reader for it.
- `Probe`: the health-check fallback chain as a pure fold, with its meaning.
- `Launch`: the launch command line and how its arguments read back.
- `Lifecycle`: the four operations that change the handle (`start_server`, `stop_server`, `ensure_server_running`, `restart_server`) as functions from (handle, environment) to (verdict, new handle). It also holds the lemmas about the start-up loop and about ownership.
- `ServerManager`: the class `AppiumServerManager`. It has the handle field and methods that mutate it. `is_server_running` and the start-up `while` loop are written as loops. The methods that change the handle (`StartServer`, `StopServer`, `EnsureServerRunning`, `RestartServer`) are proved to give the verdict and new handle of their `Lifecycle` function. `Enter` and `Exit` are proved to leave the handle that function gives. `IsServerRunning`, `GetServerInfo` and `IsAppiumRunning` are proved against `Probe.Detects`. The oracle arguments come first. The source's own parameters follow, with its defaults: host `localhost`, port 4723, timeout 30.

`start_server` needs one oracle answer for every round its loop can reach, at most ceil(timeout/2). `Lifecycle.Supplied` states this requirement. It describes the environment, not something `start_server` asks of its callers.

Points where the code's behaviour is easy to misread:

- On an exception, `stop_server` returns `False` and keeps the handle (appium_server_manager.py:175-177). A scope whose final stop raises still holds it (`Lifecycle.ScopedUseReleases`).
- `start_server` never checks an existing handle and overwrites it (appium_server_manager.py:107). See `Lifecycle.StartIgnoresHeldHandle`.
- Any non-2xx status moves on to the next URL, not only 404. Such a status matches neither branch of the `if`/`elif`, so the `for` loop just continues (appium_server_manager.py:54-60).

## Model

| member | source | states |
|---|---|---|
| `Probe.ProbeChainMeaning` | appium_server_manager.py:44-80 | The probe reports running iff, in URL order, some answer is 2xx and every earlier answer was a non-2xx status or a request error. It also reports running when every answer moves on that way and `connect_ex` returns 0. Both directions are proved. |
| `Probe.ProbeStopsAtDecidingAnswer` | appium_server_manager.py:50-84 | Probing stops at the first answer that is neither a non-2xx status nor a request error. Later URLs and the TCP fallback never change the verdict. The verdict is true exactly when that answer is a 2xx; an unexpected exception gives false. |
| `Probe.SessionsEndpointSuffices` | appium_server_manager.py:44-60 | Two 404s on the status paths followed by a 2xx on `/wd/hub/sessions` count as running. |
| `ServerManager.AppiumServerManager.IsServerRunning` | appium_server_manager.py:35-84 | The imperative loop over the three health URLs, with early returns and the TCP fallback, returns exactly the fold `Probe.Detects` over the URLs in order. |
| `Decimal.IntRoundTrip` | appium_server_manager.py:100 | The decimal text `str(port)` put in the command and URL reads back to the port, negative ports included. |
| `Launch.LaunchCommandMeaning` | appium_server_manager.py:100-104 | The command runs `appium` with exactly the `--port` pair, plus the `--address` pair for a non-loopback host, and nothing else. `--port` reads back to the manager's port. `--address` is present with the manager's host exactly when the host is neither `localhost` nor `127.0.0.1`. |
| `Lifecycle.StopSpec` | appium_server_manager.py:152-177 | With no handle: true, nothing changes. With a handle: true iff the stop did not raise. A true result always leaves no handle; a false result leaves the handle unchanged. |
| `Lifecycle.PollLoop` | appium_server_manager.py:116-133 | The start-up loop makes at most Budget(timeout) = ceil(timeout/2) probes, and none when timeout <= 0. It makes exactly that many when it times out. It makes at least one when it ends early. |
| `Lifecycle.ProbeTimes` | appium_server_manager.py:116-125 | Probe k (at elapsed 2k) happens iff k < Budget(timeout), that is, iff 2k < timeout. |
| `Lifecycle.PollStopsAtFirstEvent` | appium_server_manager.py:119-132 | The first round that is not quiet ends the loop after exactly that many probes. A quiet round has a failed probe and a child still alive. The loop ends Ready if that round's probe succeeded, otherwise ChildExited. |
| `Lifecycle.PollTimesOut` | appium_server_manager.py:119-125 | When every reachable round is quiet, the loop times out after exactly Budget(timeout) probes. |
| `Lifecycle.PollCasesExhaustive` | appium_server_manager.py:119-132 | Every environment falls under one of the two lemmas above. Either all rounds are quiet, or a first round is not. |
| `Lifecycle.PollReadsOnlyAsked` | appium_server_manager.py:119-132 | Once the loop returns, nothing further is probed or polled. Replacing every round after the last one it used leaves the result unchanged. |
| `Lifecycle.StartSpec` | appium_server_manager.py:96-143 | If the launch does not produce a child (`FileNotFoundError` or another launch exception), the result is false and the handle is not assigned. A true result means a child was launched and the handle is that child. |
| `Lifecycle.StartServerOutcomes` | appium_server_manager.py:107-136 | Three outcomes after a launch. If a probe succeeds before the child is seen dead: true, with the new handle. If the child is found dead first: false, with the handle cleared. If every round is quiet: false, with the handle as the clean-up `stop_server` leaves it. |
| `Lifecycle.StartIgnoresHeldHandle` | appium_server_manager.py:107-113 | Once the launch succeeds, the outcome does not depend on the handle already held. That handle is overwritten without being stopped. |
| `Lifecycle.StartWithoutTimeFails` | appium_server_manager.py:116-136 | With timeout <= 0, `start_server` never succeeds. |
| `Lifecycle.EnsureOutcomes` | appium_server_manager.py:189-192 | If the probe detects a server, the result is true with the handle unchanged, whatever the launcher would do. Otherwise the result and new handle are exactly those of `start_server(start_timeout)`. |
| `Lifecycle.EnsureIdempotent` | appium_server_manager.py:189-192 | Two calls against a running server both return true and launch nothing. |
| `Lifecycle.RestartOutcomes` | appium_server_manager.py:222-231 | If a handle is held and stopping it raises, the result is false and nothing changes. Otherwise the restart is a `start_server(timeout)` from an empty handle. A true result holds the newly launched child. |
| `Lifecycle.ScopedUseReleases` | appium_server_manager.py:233-240 | After `__enter__` then `__exit__`, no handle remains unless the final stop raised; a raising stop keeps whatever entry left. If the server already answered the probe on entry, entry launched nothing. Leaving then stops the handle held before the scope began. |
| `Lifecycle.NextHandleOrigin` | appium_server_manager.py:107-231 | One public call either keeps the handle, clears it, or sets it to a child that the call launched by actually reaching the launcher. A start always reaches it. An ensure reaches it only after a failed probe. A restart reaches it only when it had nothing to stop or its stop succeeded. A held handle is cleared only by a stop that did not raise (alone or inside a restart), or by a call that launched a child. |
| `Lifecycle.HeldHandleWasLaunched` | appium_server_manager.py:31-240 | After any sequence of calls, the handle is the initial one, nothing, or a child launched by one of those calls. That call reached the launcher given the handle held just before it. A manager that starts empty never holds a process it did not launch. |
| `ServerManager.AppiumServerManager.constructor` | appium_server_manager.py:19-33 | Records host and port (defaults `localhost` and 4723) and derives `server_url` and `status_url`. Starts with no handle. |
| `ServerManager.AppiumServerManager.StartServer` | appium_server_manager.py:86-143 | The launch and the `while elapsed < timeout` loop (elapsed += 2) give the verdict and new handle of `Lifecycle.StartSpec`. |
| `ServerManager.AppiumServerManager.StopServer` | appium_server_manager.py:145-177 | Gives the verdict and new handle of `Lifecycle.StopSpec`. |
| `ServerManager.AppiumServerManager.EnsureServerRunning` | appium_server_manager.py:179-192 | Probe first, else start: the verdict and new handle of `Lifecycle.EnsureSpec`. |
| `ServerManager.AppiumServerManager.GetServerInfo` | appium_server_manager.py:194-210 | Reports host, port and server URL, plus a fresh probe. `managed_process` holds iff a handle is held, iff `process_id` is present, and that id is the held child's pid. |
| `ServerManager.AppiumServerManager.RestartServer` | appium_server_manager.py:212-231 | Stops only when a handle is held and aborts if that stop fails: the verdict and new handle of `Lifecycle.RestartSpec`. |
| `ServerManager.AppiumServerManager.Enter` | appium_server_manager.py:233-236 | Runs `ensure_server_running` with the default 30 s timeout, discards its verdict and returns the manager itself. |
| `ServerManager.AppiumServerManager.Exit` | appium_server_manager.py:238-240 | Runs `stop_server`, discards its verdict and does not suppress the exception leaving the scope. |
| `ServerManager.StartAppiumServer` | appium_server_manager.py:244-265 | Fails with the start-up error exactly when `ensure_server_running` on a fresh manager fails. Otherwise it returns that fresh manager holding the handle ensure left. |
| `ServerManager.IsAppiumRunning` | appium_server_manager.py:268-280 | A fresh manager's probe gives exactly `Probe.Detects` for the endpoint. |

## Left out

- The real HTTP requests, socket, `subprocess.Popen`, `os.killpg`/`os.getpgid`, signals, `communicate` and `time.sleep` are not modelled. They are outcomes supplied as data, and the sleep is the step `elapsed += 2`.
- Probe and stop timeouts (3 s, 2 s, 10 s) are not modelled. The oracle reports their effect.
- Log messages and the logger are not modelled.
- `StartServer`'s outer `except Exception` is modelled only for the launch (`LaunchRaised`). An exception from `poll()` or `communicate()` inside the loop is not modelled. In the code it would return `False` and keep the handle.
- A non-integer `timeout` is not modelled. Timeouts are integers.
- The `__main__` demonstration at the end of the file is not modelled, because it is a usage example.
- gmail_automation.py, test_gmail_automation.py and run_tests.py are not part of this model. They drive the phone UI and the test runner, and only call into the manager.

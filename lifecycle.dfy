/**
 * The ownership state machine of the server manager, stated on values.
 *
 * The manager's only state is the handle of a server process it launched
 * itself, or nothing. The four operations that change it (`start_server`,
 * `stop_server`, `ensure_server_running`, `restart_server`) are total
 * functions from that handle and the environment's answers (probe outcomes,
 * the launch outcome, the child's alive/exited answer at each poll, the
 * stop outcome) to a boolean verdict and the new handle. The matching
 * methods of the class in module ServerManager are proved to follow them.
 */
module Lifecycle {
  import opened Wrappers
  import opened Probe
  import opened Launch

  /** Seconds slept between two start-up probes. */
  const WaitInterval: int := 2

  /** The default timeout of `start_server`, `ensure_server_running`,
      `restart_server` and `start_appium_server`; `__enter__` relies on it. */
  const DefaultTimeout: int := 30

  /** A child process this manager launched. */
  datatype Process = Process(pid: int)

  /** What launching `appium` gives. */
  datatype LaunchOutcome =
    | Spawned(pid: int)      // the child was created
    | ExecutableNotFound     // `FileNotFoundError`: appium is not installed
    | LaunchRaised           // any other exception from the launch

  /** One round of the start-up loop: the probe made at the top of the
      round, and whether the child has exited when polled after the sleep. */
  datatype PollRound = PollRound(probe: ProbeRound, exited: bool)

  /** How stopping an owned process goes. */
  datatype StopOutcome =
    | ExitsOnTerm            // the group exits within the 10 second grace period after SIGTERM
    | ExitsOnKill            // the grace period runs out; SIGKILL and an unbounded wait follow
    | StopRaised             // signalling or waiting raised

  /** The environment of one `start_server` call: the launcher, asked with
      the command line; the answers for each polling round, in order; and
      how the clean-up stop after a timeout goes. */
  datatype StartEnv = StartEnv(spawn: seq<string> -> LaunchOutcome, polls: seq<PollRound>, cleanup: StopOutcome)

  /** The verdict of an operation and the handle it leaves behind. */
  datatype Outcome = Outcome(ok: bool, handle: Option<Process>)

  /** How many probes the start-up loop can make: one at each elapsed time
      0, 2, 4, ... strictly below `timeout`. */
  function Budget(timeout: int): nat {
    if timeout <= 0 then 0 else (timeout + 1) / 2
  }

  lemma ProbeTimes(timeout: int, k: nat)
    ensures k < Budget(timeout) <==> WaitInterval * k < timeout
  {
  }

  /** The environment answers every round the loop can reach. */
  predicate Supplied(timeout: int, env: StartEnv) {
    |env.polls| >= Budget(timeout)
  }

  // ---------------------------------------------------------------- stop

  /** `stop_server`: nothing to do without a handle; otherwise the handle is
      cleared after a clean exit (by SIGTERM, or SIGKILL after the grace
      period), and kept when signalling or waiting raised. */
  function StopSpec(handle: Option<Process>, outcome: StopOutcome): (r: Outcome)
    ensures handle.None? ==> r == Outcome(true, None)
    ensures handle.Some? ==> (r.ok <==> !outcome.StopRaised?)
    ensures r.ok ==> r.handle.None?
    ensures !r.ok ==> r.handle == handle
  {
    if handle.None? then Outcome(true, handle)
    else match outcome
      case StopRaised => Outcome(false, handle)
      case _ => Outcome(true, None)
  }

  // ---------------------------------------------------------- start-up loop

  datatype PollEnd = Ready | ChildExited | TimedOut

  /** How the start-up loop ended and how many probes it made. */
  datatype PollResult = PollResult(end: PollEnd, probes: nat)

  /** A round in which the probe failed and the child was still alive. */
  predicate Quiet(host: string, port: int, p: PollRound) {
    !Detects(host, port, p.probe) && !p.exited
  }

  predicate QuietBetween(host: string, port: int, polls: seq<PollRound>, from: nat, to: nat)
    requires to <= |polls|
  {
    forall j :: from <= j < to ==> Quiet(host, port, polls[j])
  }

  /** The `while elapsed < timeout` loop of `start_server` from round
      `round` on (elapsed = 2 * round): probe; on success stop; otherwise
      sleep, and stop if the child has exited. */
  function PollLoop(host: string, port: int, polls: seq<PollRound>, round: nat, timeout: int): (r: PollResult)
    requires round <= Budget(timeout) <= |polls|
    ensures round <= r.probes <= Budget(timeout)
    ensures r.end == TimedOut ==> r.probes == Budget(timeout)
    ensures r.end != TimedOut ==> round < r.probes
    decreases Budget(timeout) - round
  {
    if WaitInterval * round >= timeout then PollResult(TimedOut, round)
    else
      var next := polls[round];
      if Detects(host, port, next.probe) then PollResult(Ready, round + 1)
      else if next.exited then PollResult(ChildExited, round + 1)
      else PollLoop(host, port, polls, round + 1, timeout)
  }

  /** The first round that is not quiet ends the loop, after exactly that
      many probes: with Ready when its probe succeeded, with ChildExited
      when the child had exited. */
  lemma {:induction false} PollStopsAtFirstEvent(
    host: string, port: int, polls: seq<PollRound>, round: nat, timeout: int, k: nat)
    requires round <= k < Budget(timeout) <= |polls|
    requires QuietBetween(host, port, polls, round, k) && !Quiet(host, port, polls[k])
    ensures PollLoop(host, port, polls, round, timeout) ==
            PollResult(if Detects(host, port, polls[k].probe) then Ready else ChildExited, k + 1)
    decreases k - round
  {
    ProbeTimes(timeout, round);
    if round < k {
      assert Quiet(host, port, polls[round]);
      PollStopsAtFirstEvent(host, port, polls, round + 1, timeout, k);
    }
  }

  /** When every round the timeout allows is quiet, the loop times out
      after exactly Budget(timeout) probes. */
  lemma {:induction false} PollTimesOut(host: string, port: int, polls: seq<PollRound>, round: nat, timeout: int)
    requires round <= Budget(timeout) <= |polls|
    requires QuietBetween(host, port, polls, round, Budget(timeout))
    ensures PollLoop(host, port, polls, round, timeout) == PollResult(TimedOut, Budget(timeout))
    decreases Budget(timeout) - round
  {
    ProbeTimes(timeout, round);
    if round < Budget(timeout) {
      assert Quiet(host, port, polls[round]);
      PollTimesOut(host, port, polls, round + 1, timeout);
    }
  }

  /** The two lemmas above cover every environment: either all rounds are
      quiet or there is a first one that is not. */
  lemma {:induction false} PollCasesExhaustive(host: string, port: int, polls: seq<PollRound>, timeout: int, round: nat)
    requires round <= Budget(timeout) <= |polls|
    ensures QuietBetween(host, port, polls, round, Budget(timeout)) ||
            exists k :: round <= k < Budget(timeout) && QuietBetween(host, port, polls, round, k) && !Quiet(host, port, polls[k])
    decreases Budget(timeout) - round
  {
    if round < Budget(timeout) {
      if Quiet(host, port, polls[round]) {
        PollCasesExhaustive(host, port, polls, timeout, round + 1);
        if !QuietBetween(host, port, polls, round + 1, Budget(timeout)) {
          var k :| round + 1 <= k < Budget(timeout) && QuietBetween(host, port, polls, round + 1, k) && !Quiet(host, port, polls[k]);
          assert QuietBetween(host, port, polls, round, k);
        }
      } else {
        assert QuietBetween(host, port, polls, round, round);
      }
    }
  }

  /** The loop returns as soon as a round is decisive and asks nothing
      further: replacing every round after the last one it probed does not
      change its result. */
  lemma {:induction false} PollReadsOnlyAsked(
    host: string, port: int, polls: seq<PollRound>, later: seq<PollRound>, round: nat, timeout: int)
    requires round <= Budget(timeout) <= |polls|
    requires PollLoop(host, port, polls, round, timeout).probes + |later| >= Budget(timeout)
    ensures var r := PollLoop(host, port, polls, round, timeout);
            PollLoop(host, port, polls[..r.probes] + later, round, timeout) == r
    decreases Budget(timeout) - round
  {
    var r := PollLoop(host, port, polls, round, timeout);
    var asked := polls[..r.probes] + later;
    if WaitInterval * round < timeout {
      ProbeTimes(timeout, round);
      assert asked[round] == polls[round];
      if Quiet(host, port, polls[round]) {
        PollReadsOnlyAsked(host, port, polls, later, round + 1, timeout);
      }
    }
  }

  // ------------------------------------------------------------------ start

  /** `start_server(timeout)`. */
  function StartSpec(host: string, port: int, handle: Option<Process>, timeout: int, env: StartEnv): (r: Outcome)
    requires Supplied(timeout, env)
    ensures !env.spawn(LaunchCommand(host, port)).Spawned? ==> r == Outcome(false, handle)
    ensures r.ok ==> env.spawn(LaunchCommand(host, port)).Spawned? &&
                     r.handle == Some(Process(env.spawn(LaunchCommand(host, port)).pid))
  {
    match env.spawn(LaunchCommand(host, port))
    case Spawned(pid) =>
      var polled := PollLoop(host, port, env.polls, 0, timeout);
      (match polled.end
       case Ready => Outcome(true, Some(Process(pid)))
       case ChildExited => Outcome(false, None)
       case TimedOut => Outcome(false, StopSpec(Some(Process(pid)), env.cleanup).handle))
    case _ => Outcome(false, handle)
  }

  /** The three ways a launched server's start-up ends: ready at the first
      successful probe, keeping the new handle; failed with the handle
      cleared when the child is found dead first; failed after all
      Budget(timeout) probes, with the handle left as the clean-up stop
      leaves it. */
  lemma StartServerOutcomes(host: string, port: int, handle: Option<Process>, timeout: int, env: StartEnv)
    requires Supplied(timeout, env)
    requires env.spawn(LaunchCommand(host, port)).Spawned?
    ensures var child := Some(Process(env.spawn(LaunchCommand(host, port)).pid));
      && (forall k :: 0 <= k < Budget(timeout) && QuietBetween(host, port, env.polls, 0, k) && !Quiet(host, port, env.polls[k]) ==>
            StartSpec(host, port, handle, timeout, env) ==
              if Detects(host, port, env.polls[k].probe) then Outcome(true, child) else Outcome(false, None))
      && (QuietBetween(host, port, env.polls, 0, Budget(timeout)) ==>
            StartSpec(host, port, handle, timeout, env) == Outcome(false, StopSpec(child, env.cleanup).handle))
  {
    forall k | 0 <= k < Budget(timeout) && QuietBetween(host, port, env.polls, 0, k) && !Quiet(host, port, env.polls[k])
      ensures StartSpec(host, port, handle, timeout, env).ok == Detects(host, port, env.polls[k].probe)
      ensures StartSpec(host, port, handle, timeout, env).handle ==
              if Detects(host, port, env.polls[k].probe) then Some(Process(env.spawn(LaunchCommand(host, port)).pid)) else None
    {
      PollStopsAtFirstEvent(host, port, env.polls, 0, timeout, k);
    }
    if QuietBetween(host, port, env.polls, 0, Budget(timeout)) {
      PollTimesOut(host, port, env.polls, 0, timeout);
    }
  }

  /** `start_server` does not look at the handle it already holds: once the
      launch succeeds, the outcome is the same whatever was held before,
      so an old handle is overwritten without being stopped. */
  lemma StartIgnoresHeldHandle(host: string, port: int, held: Option<Process>, timeout: int, env: StartEnv)
    requires Supplied(timeout, env)
    requires env.spawn(LaunchCommand(host, port)).Spawned?
    ensures StartSpec(host, port, held, timeout, env) == StartSpec(host, port, None, timeout, env)
  {
  }

  /** With no time to wait, a launched server is stopped again at once and
      the start fails. */
  lemma StartWithoutTimeFails(host: string, port: int, handle: Option<Process>, timeout: int, env: StartEnv)
    requires timeout <= 0
    ensures Supplied(timeout, env)
    ensures !StartSpec(host, port, handle, timeout, env).ok
  {
  }

  // ---------------------------------------------------------- ensure, restart

  /** `ensure_server_running(timeout)`. */
  function EnsureSpec(host: string, port: int, handle: Option<Process>, timeout: int, probe: ProbeRound, env: StartEnv): (r: Outcome)
    requires Supplied(timeout, env)
  {
    if Detects(host, port, probe) then Outcome(true, handle) else StartSpec(host, port, handle, timeout, env)
  }

  /** A server that answers the probe is reported ready with nothing
      launched and the handle untouched, whatever the launcher would do;
      otherwise the call is exactly `start_server(timeout)`. */
  lemma EnsureOutcomes(host: string, port: int, handle: Option<Process>, timeout: int, probe: ProbeRound, env: StartEnv)
    requires Supplied(timeout, env)
    ensures Detects(host, port, probe) ==>
      forall other: StartEnv :: Supplied(timeout, other) ==>
        EnsureSpec(host, port, handle, timeout, probe, other) == Outcome(true, handle)
    ensures !Detects(host, port, probe) ==>
      EnsureSpec(host, port, handle, timeout, probe, env) == StartSpec(host, port, handle, timeout, env)
  {
  }

  /** Calling `ensure_server_running` twice against a running server
      succeeds both times and launches nothing. */
  lemma EnsureIdempotent(host: string, port: int, handle: Option<Process>, timeout: int,
                         first: ProbeRound, second: ProbeRound, env1: StartEnv, env2: StartEnv)
    requires Supplied(timeout, env1) && Supplied(timeout, env2)
    requires Detects(host, port, first) && Detects(host, port, second)
    ensures var once := EnsureSpec(host, port, handle, timeout, first, env1);
            once == Outcome(true, handle) && EnsureSpec(host, port, once.handle, timeout, second, env2) == once
  {
  }

  /** `restart_server(timeout)`. */
  function RestartSpec(host: string, port: int, handle: Option<Process>, timeout: int, outcome: StopOutcome, env: StartEnv): (r: Outcome)
    requires Supplied(timeout, env)
  {
    if handle.Some? then
      var stopped := StopSpec(handle, outcome);
      if !stopped.ok then Outcome(false, stopped.handle)
      else StartSpec(host, port, stopped.handle, timeout, env)
    else StartSpec(host, port, handle, timeout, env)
  }

  /** A restart either gives up before launching, because stopping the held
      process raised, and changes nothing; or it is a start from an empty
      handle. A successful restart holds the newly launched child. */
  lemma RestartOutcomes(host: string, port: int, handle: Option<Process>, timeout: int, outcome: StopOutcome, env: StartEnv)
    requires Supplied(timeout, env)
    ensures var r := RestartSpec(host, port, handle, timeout, outcome, env);
      && (handle.Some? && outcome.StopRaised? ==> r == Outcome(false, handle))
      && (handle.None? || !outcome.StopRaised? ==> r == StartSpec(host, port, None, timeout, env))
      && (r.ok ==> env.spawn(LaunchCommand(host, port)).Spawned? &&
                   r.handle == Some(Process(env.spawn(LaunchCommand(host, port)).pid)))
  {
  }

  /** Entering the managed scope (`ensure_server_running` with the default
      timeout, its verdict discarded) and leaving it (`stop_server`, its
      verdict discarded). Leaving clears whatever handle entry left unless
      the final stop raised, and then keeps it. When the server already
      answered the probe on entry nothing was launched, so the handle that
      leaving stops is the one held before the scope began. */
  lemma ScopedUseReleases(host: string, port: int, handle: Option<Process>, probe: ProbeRound, env: StartEnv, outcome: StopOutcome)
    requires Supplied(DefaultTimeout, env)
    ensures var entered := EnsureSpec(host, port, handle, DefaultTimeout, probe, env).handle;
      && (Detects(host, port, probe) ==> entered == handle)
      && (!outcome.StopRaised? ==> StopSpec(entered, outcome).handle.None?)
      && (outcome.StopRaised? ==> StopSpec(entered, outcome).handle == entered)
  {
  }

  // -------------------------------------------------------------- ownership

  /** One public call with the environment it meets. Observe stands for
      `is_server_running` and `get_server_info`, which only read. */
  datatype Call =
    | Observe(probe: ProbeRound)
    | Start(timeout: int, env: StartEnv)
    | Stop(outcome: StopOutcome)
    | Ensure(timeout: int, probe: ProbeRound, env: StartEnv)
    | Restart(timeout: int, outcome: StopOutcome, env: StartEnv)

  predicate CallSupplied(c: Call) {
    match c
    case Start(timeout, env) => Supplied(timeout, env)
    case Ensure(timeout, _, env) => Supplied(timeout, env)
    case Restart(timeout, _, env) => Supplied(timeout, env)
    case _ => true
  }

  /** The call reaches the launcher with the manager's command line and
      the launcher creates child `pid`: a start always does; an ensure only
      when its probe failed; a restart only when it had nothing to stop or
      its stop succeeded. */
  predicate Launches(host: string, port: int, handle: Option<Process>, c: Call, pid: int) {
    match c
    case Start(_, env) => env.spawn(LaunchCommand(host, port)) == Spawned(pid)
    case Ensure(_, probe, env) => !Detects(host, port, probe) && env.spawn(LaunchCommand(host, port)) == Spawned(pid)
    case Restart(_, outcome, env) =>
      (handle.None? || !outcome.StopRaised?) && env.spawn(LaunchCommand(host, port)) == Spawned(pid)
    case _ => false
  }

  /** The handle after one call. */
  function NextHandle(host: string, port: int, handle: Option<Process>, c: Call): Option<Process>
    requires CallSupplied(c)
  {
    match c
    case Observe(_) => handle
    case Start(timeout, env) => StartSpec(host, port, handle, timeout, env).handle
    case Stop(outcome) => StopSpec(handle, outcome).handle
    case Ensure(timeout, probe, env) => EnsureSpec(host, port, handle, timeout, probe, env).handle
    case Restart(timeout, outcome, env) => RestartSpec(host, port, handle, timeout, outcome, env).handle
  }

  /** A call keeps the handle, clears it, or replaces it by a child that
      this very call launched; never by anything else. A held handle is
      cleared only by a stop (alone or inside a restart) that did not raise,
      or by a call that launched a child, which then exited or was stopped
      again after the timeout. */
  lemma NextHandleOrigin(host: string, port: int, handle: Option<Process>, c: Call)
    requires CallSupplied(c)
    ensures var next := NextHandle(host, port, handle, c);
            next == handle || next.None? || Launches(host, port, handle, c, next.value.pid)
    ensures var next := NextHandle(host, port, handle, c);
            next.None? && handle.Some? ==>
              ((c.Stop? || c.Restart?) && !c.outcome.StopRaised?) || exists pid :: Launches(host, port, handle, c, pid)
  {
    if c.Start? || c.Ensure? || c.Restart? {
      var launch := c.env.spawn(LaunchCommand(host, port));
      if launch.Spawned? {
        assert c.Start? ==> Launches(host, port, handle, c, launch.pid);
        assert c.Ensure? && !Detects(host, port, c.probe) ==> Launches(host, port, handle, c, launch.pid);
      }
    }
  }

  /** The handle after a sequence of calls. */
  function Run(host: string, port: int, handle: Option<Process>, calls: seq<Call>): Option<Process>
    requires forall i :: 0 <= i < |calls| ==> CallSupplied(calls[i])
    decreases |calls|
  {
    if calls == [] then handle
    else Run(host, port, NextHandle(host, port, handle, calls[0]), calls[1..])
  }

  /** Ownership: after any sequence of calls the manager holds either what
      it held at the start, nothing, or a child that one of those calls
      launched, with the handle held just before that call. A manager that
      starts empty never holds a process it did not start. */
  lemma {:induction false} HeldHandleWasLaunched(host: string, port: int, handle: Option<Process>, calls: seq<Call>)
    requires forall i :: 0 <= i < |calls| ==> CallSupplied(calls[i])
    ensures var held := Run(host, port, handle, calls);
      held == handle || held.None? ||
      exists i :: 0 <= i < |calls| && Launches(host, port, Run(host, port, handle, calls[..i]), calls[i], held.value.pid)
    decreases |calls|
  {
    if calls != [] {
      var next := NextHandle(host, port, handle, calls[0]);
      var held := Run(host, port, handle, calls);
      NextHandleOrigin(host, port, handle, calls[0]);
      HeldHandleWasLaunched(host, port, next, calls[1..]);
      if held != handle && held.Some? {
        if held == next {
          assert calls[..0] == [];
          assert Launches(host, port, Run(host, port, handle, calls[..0]), calls[0], held.value.pid);
        } else {
          var i :| 0 <= i < |calls[1..]| &&
                   Launches(host, port, Run(host, port, next, calls[1..][..i]), calls[1..][i], held.value.pid);
          assert calls[..i + 1][0] == calls[0];
          assert calls[..i + 1][1..] == calls[1..][..i];
          assert Run(host, port, handle, calls[..i + 1]) == Run(host, port, next, calls[1..][..i]);
          assert Launches(host, port, Run(host, port, handle, calls[..i + 1]), calls[i + 1], held.value.pid);
        }
      }
    }
  }
}

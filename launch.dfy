/**
 * The command line `start_server` hands to the process launcher.
 */
module Launch {
  import opened Wrappers
  import Decimal

  /** The two host spellings the manager treats as loopback. */
  predicate IsLoopback(host: string) {
    host == "localhost" || host == "127.0.0.1"
  }

  /** `appium --port <port>`, followed by `--address <host>` for any host
      that is not a loopback spelling. */
  function LaunchCommand(host: string, port: int): seq<string>
  {
    ["appium", "--port", Decimal.FromInt(port)] + (if IsLoopback(host) then [] else ["--address", host])
  }

  /** How a command line of `--flag value` pairs is read back: the value
      after the first occurrence of `flag`, if any. */
  function FlagValue(args: seq<string>, flag: string): Option<string>
    decreases |args|
  {
    if |args| < 2 then None
    else if args[0] == flag then Some(args[1])
    else FlagValue(args[2..], flag)
  }

  /** The launched program is `appium` with no arguments besides one
      `--port` pair and, exactly when the host is not loopback, one
      `--address` pair; they read back to the manager's port and host. */
  lemma LaunchCommandMeaning(host: string, port: int)
    ensures var cmd := LaunchCommand(host, port);
      && |cmd| == (if IsLoopback(host) then 3 else 5) && cmd[0] == "appium"
      && FlagValue(cmd[1..], "--port").Some?
      && Decimal.ToInt(FlagValue(cmd[1..], "--port").value) == Some(port)
      && FlagValue(cmd[1..], "--address") == (if IsLoopback(host) then None else Some(host))
  {
    var cmd := LaunchCommand(host, port);
    var args := cmd[1..];
    assert args[0] == "--port" && args[1] == Decimal.FromInt(port);
    assert "--port" != "--address" by { assert |"--port"| != |"--address"|; }
    assert args[2..] == (if IsLoopback(host) then [] else ["--address", host]);
    Decimal.IntRoundTrip(port);
  }
}

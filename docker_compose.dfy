/**
 * src/docker_compose.rs: container lifecycle commands, each one or more
 * `docker-compose` invocations joined by early returns.
 */
module DockerCompose {
  import opened Prelude
  import opened Shell
  import Decimal

  const ComposeProgram: string := "docker-compose"

  /** The arguments `stop` always passes, before the optional service. */
  const RemoveArgs: seq<string> := ["rm", "--stop", "--force", "-v"]

  /** The three steps of `rebuild(service)`, in the order it runs them. */
  function RebuildPlan(service: string): seq<Invocation>
  {
    [ Invocation(ComposeProgram, RemoveArgs + [service]),
      Invocation(ComposeProgram, ["build", "--force-rm", service]),
      Invocation(ComposeProgram, ["up", "-d"]) ]
  }

  /** Starts all containers, building the images first when `build` is set. */
  method Start(sh: Runner, build: bool) returns (ok: bool)
    modifies sh
    ensures build ==> sh.log == old(sh.log) + [ Invocation(ComposeProgram, ["build", "--force-rm", "--parallel"]),
                                                Invocation(ComposeProgram, ["up", "-d"]) ]
    ensures !build ==> sh.log == old(sh.log) + [Invocation(ComposeProgram, ["up", "-d"])]
    // the result of the build is ignored: only that of `up -d` is returned
    ensures ok == sh.succeeds(|sh.log| - 1)
  {
    if build {
      var _ := sh.Exec(ComposeProgram, ["build", "--force-rm", "--parallel"]);
    }
    ok := sh.Exec(ComposeProgram, ["up", "-d"]);
  }

  /** Stops and removes all containers, or only the given service's. */
  method Stop(sh: Runner, service: Option<string>) returns (ok: bool)
    modifies sh
    ensures sh.log == old(sh.log) + [Invocation(ComposeProgram, RemoveArgs + ToSeq(service))]
    ensures ok == sh.succeeds(|old(sh.log)|)
  {
    var params := ["rm", "--stop", "--force", "-v"];
    if service.Some? {
      params := params + [service.value];
    }
    assert params == RemoveArgs + ToSeq(service);
    ok := sh.Exec(ComposeProgram, params);
  }

  method Restart(sh: Runner, all: bool, service: string) returns (ok: bool)
    modifies sh
    ensures all ==> sh.log == old(sh.log) + [Invocation(ComposeProgram, ["restart"])]
    ensures !all ==> sh.log == old(sh.log) + [Invocation(ComposeProgram, ["restart", service])]
    ensures ok == sh.succeeds(|old(sh.log)|)
  {
    if all {
      ok := sh.Exec(ComposeProgram, ["restart"]);
    } else {
      ok := sh.Exec(ComposeProgram, ["restart", service]);
    }
  }

  /** Stops the service, rebuilds its image and starts everything again, giving up at the first failure. */
  method Rebuild(sh: Runner, service: string) returns (ok: bool)
    modifies sh
    ensures var c := Chain(RebuildPlan(service), sh.succeeds, |old(sh.log)|);
            sh.log == old(sh.log) + c.ran && ok == c.ok
    ensures 1 <= |sh.log| - |old(sh.log)| <= 3
    ensures RunsOnly(sh.log[|old(sh.log)|..], ComposeProgram)
  {
    ghost var plan, at := RebuildPlan(service), |sh.log|;
    ok := Stop(sh, Some(service));
    if !ok {
      return false;
    }
    ok := sh.Exec(ComposeProgram, ["build", "--force-rm", service]);
    if !ok {
      return false;
    }
    ok := sh.Exec(ComposeProgram, ["up", "-d"]);
    assert sh.log == old(sh.log) + plan;
  }

  method Status(sh: Runner) returns (ok: bool)
    modifies sh
    ensures sh.log == old(sh.log) + [Invocation(ComposeProgram, ["ps"])]
    ensures ok == sh.succeeds(|old(sh.log)|)
  {
    ok := sh.Exec(ComposeProgram, ["ps"]);
  }

  /** Shows the last `numLines` log lines of a service, following the output when asked. */
  method Logs(sh: Runner, service: string, numLines: Decimal.i32, follow: bool) returns (ok: bool)
    modifies sh
    ensures sh.log == old(sh.log) + [Invocation(ComposeProgram, LogsArgs(service, numLines, follow))]
    ensures ok == sh.succeeds(|old(sh.log)|)
  {
    var tail := "--tail=" + Decimal.Show(numLines as int);
    var args := ["logs", "--timestamps", tail];
    if follow {
      args := args + ["--follow"];
    }
    args := args + [service];
    assert args == LogsArgs(service, numLines, follow);
    ok := sh.Exec(ComposeProgram, args);
  }

  /** The arguments of `logs`: what they say can be read back from them. */
  function LogsArgs(service: string, numLines: Decimal.i32, follow: bool): (args: seq<string>)
    ensures |args| == (if follow then 5 else 4)
    ensures args[..2] == ["logs", "--timestamps"]
    ensures |args[2]| > 7 && args[2][..7] == "--tail=" && Decimal.Parse(args[2][7..]) == Some(numLines as int)
    // written as `{}` writes it, without leading zeros
    ensures var t := args[2][7..]; |t| > 1 ==> t[0] != '0' && (t[0] == '-' ==> t[1] != '0')
    ensures "--follow" in args[..|args| - 1] <==> follow
    ensures args[|args| - 1] == service
  {
    Decimal.ShowRoundTrip(numLines as int);
    var tail := "--tail=" + Decimal.Show(numLines as int);
    assert tail[7..] == Decimal.Show(numLines as int);
    assert tail != "--follow" by { assert tail[2] == 't'; }
    ["logs", "--timestamps", tail] + (if follow then ["--follow"] else []) + [service]
  }
}

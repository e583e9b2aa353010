/** HostStrategy::build_command (native/src/strategies/host.rs): no
    isolation. On Windows shell builtins go through "cmd /c"; the launcher's
    environment is inherited with the context's variables added. */
module StrategyHost {
  import opened Wrappers
  import opened StrategyBase
  import StrategyWindows
  import StrategyMacos

  /** The host strategy's builtins: the Windows list without "ver". */
  const HOST_BUILTINS: seq<string> := ["echo", "dir", "del", "copy", "move", "mkdir", "rmdir", "type", "cls", "ping"]

  /** Lines 19-30: only on Windows, only for a builtin, and with no batch-file
      rule. onWindows stands for cfg!(windows). */
  predicate HostNeedsShell(program: string, onWindows: bool) {
    onWindows && ToLower(program) in HOST_BUILTINS
  }

  /** build_command: the program (rewritten and resolved), the arguments,
      the inherited environment with ctx.envVars added, and ctx.cwd or the
      workspace root as working directory. */
  method BuildCommand(ctx: ExecutionContext, host: HostView, onWindows: bool) returns (c: Command)
    ensures HostNeedsShell(ctx.cmd, onWindows) ==> c.program == "cmd" && c.args == ["/c", ctx.cmd] + ctx.args
    ensures !HostNeedsShell(ctx.cmd, onWindows) ==> c.program == Resolve(ctx.cmd, host.which) && c.args == ctx.args
    ensures !c.envClear && c.env == ctx.envVars
    ensures c.currentDir == Some(CwdOrRoot(ctx))
  {
    var program := ctx.cmd;
    var args := ctx.args;
    if onWindows {
      var cmdLower := ToLower(program);
      if cmdLower in HOST_BUILTINS {
        program, args := WrapWithCmd(program, args);
      }
    }
    var resolvedProgram := if program == "cmd" then "cmd"
                           else if program in host.which then host.which[program] else program;
    var env := Envs(map[], ctx.envVars);
    var dir := match ctx.cwd case Some(d) => d case None => ctx.rootPath;
    c := Command(resolvedProgram, args, false, env, Some(dir));
  }

  /** Off Windows the command passes through untouched apart from lookup. */
  lemma PassThroughOffWindows(program: string)
    ensures !HostNeedsShell(program, false)
  {
  }

  /** Where the host rule differs from the Windows strategy's: "ver" and
      batch files are wrapped there and not here; every host builtin is also
      a Windows builtin. */
  lemma HostRuleIsNarrower(program: string)
    ensures HostNeedsShell(program, true) ==> StrategyWindows.NeedsShell(program)
    ensures StrategyWindows.NeedsShell("ver") && !HostNeedsShell("ver", true)
    ensures StrategyWindows.NeedsShell("run.bat") && !HostNeedsShell("run.bat", true)
  {
    assert ToLower("ver") == "ver";
    assert ToLower("run.bat") == "run.bat";
  }

  /** The child's environment under the host strategy: the launcher's
      environment with the context's variables over it, which is exactly what
      the macOS strategy builds explicitly. */
  lemma HostEnvMatchesMacos(ctx: ExecutionContext, host: HostView, onWindows: bool, c: Command, m: Command)
    requires !c.envClear && c.env == ctx.envVars
    requires m.envClear && m.env == StrategyMacos.MacosEnv(ctx, host)
    ensures EffectiveEnv(c, host.env) == EffectiveEnv(m, host.env) == host.env + ctx.envVars
  {
  }
}

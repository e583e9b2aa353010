/** WindowsJobStrategy::build_command (native/src/strategies/windows.rs):
    shell builtins and batch files go through "cmd /c", the environment is
    rebuilt from a whitelist, a denied network is signalled through dead-end
    proxy variables, and the working directory defaults to the workspace. */
module StrategyWindows {
  import opened Wrappers
  import opened StrategyBase

  const BUILTINS: seq<string> := ["echo", "dir", "del", "copy", "move", "mkdir", "rmdir", "type", "cls", "ping", "ver"]

  /** Lines 32: a batch file, judged on the lowercased name. */
  predicate IsBatch(lower: string) {
    EndsWith(lower, ".bat") || EndsWith(lower, ".cmd")
  }

  /** Lines 27-34: the program needs cmd.exe when its lowercased name is a
      builtin or a batch file. */
  predicate NeedsShell(program: string) {
    ToLower(program) in BUILTINS || IsBatch(ToLower(program))
  }

  const CRITICAL_VARS: seq<string> :=
    ["SystemRoot", "windir", "PATH", "PATHEXT", "COMSPEC", "TEMP", "TMP", "USERPROFILE", "JAVA_HOME"]

  const PROXY_VARS: seq<string> := ["HTTP_PROXY", "HTTPS_PROXY", "ALL_PROXY", "NO_PROXY"]
  const DEAD_HTTP_PROXY: string := "http://0.0.0.0:0"
  const DEAD_SOCKS_PROXY: string := "socks5://0.0.0.0:0"

  /** Lines 69-74: proxies that lead nowhere, and no proxy exemptions, set
      over whatever the environment already held. */
  function WithDeadEndProxies(env: map<string, string>): map<string, string> {
    env["HTTP_PROXY" := DEAD_HTTP_PROXY]["HTTPS_PROXY" := DEAD_HTTP_PROXY]
       ["ALL_PROXY" := DEAD_SOCKS_PROXY]["NO_PROXY" := ""]
  }

  /** Lines 49-74: the critical host variables that are set, the context's
      variables over them, and the dead-end proxies over both when the
      network is denied. */
  function WindowsEnv(ctx: ExecutionContext, host: HostView): map<string, string> {
    var env := Whitelisted(CRITICAL_VARS, host.env) + ctx.envVars;
    if ctx.allowNetwork then env else WithDeadEndProxies(env)
  }

  /** Lines 25-38: the program and arguments after the cmd.exe rewrite. */
  method RewriteForShell(ctx: ExecutionContext) returns (program: string, args: seq<string>)
    ensures NeedsShell(ctx.cmd) ==> program == "cmd" && args == ["/c", ctx.cmd] + ctx.args
    ensures !NeedsShell(ctx.cmd) ==> program == ctx.cmd && args == ctx.args
  {
    program := ctx.cmd;
    args := ctx.args;
    var progLower := ToLower(program);
    var isBatch := EndsWith(progLower, ".bat") || EndsWith(progLower, ".cmd");
    if progLower in BUILTINS || isBatch {
      program, args := WrapWithCmd(program, args);
    }
  }

  /** Lines 49-74: the environment the child receives. */
  method BuildEnv(ctx: ExecutionContext, host: HostView) returns (env: map<string, string>)
    ensures env == WindowsEnv(ctx, host)
  {
    env := map[];
    env := CopyVars(env, CRITICAL_VARS, host.env);
    env := Envs(env, ctx.envVars);
    ghost var granted := env;
    assert granted == Whitelisted(CRITICAL_VARS, host.env) + ctx.envVars;
    if !ctx.allowNetwork {
      env := env["HTTP_PROXY" := DEAD_HTTP_PROXY];
      env := env["HTTPS_PROXY" := DEAD_HTTP_PROXY];
      env := env["ALL_PROXY" := DEAD_SOCKS_PROXY];
      env := env["NO_PROXY" := ""];
    }
  }

  /** build_command without the job-object set-up: the program (rewritten to
      cmd and resolved), the arguments, a cleared environment holding
      WindowsEnv, and ctx.cwd or the workspace root as working directory. */
  method BuildCommand(ctx: ExecutionContext, host: HostView) returns (c: Command)
    ensures NeedsShell(ctx.cmd) ==> c.program == "cmd" && c.args == ["/c", ctx.cmd] + ctx.args
    ensures !NeedsShell(ctx.cmd) ==> c.program == Resolve(ctx.cmd, host.which) && c.args == ctx.args
    ensures c.envClear && c.env == WindowsEnv(ctx, host)
    ensures c.currentDir == Some(CwdOrRoot(ctx))
  {
    var program, args := RewriteForShell(ctx);
    var resolvedProgram := if program == "cmd" then "cmd"
                           else if program in host.which then host.which[program] else program;
    var env := BuildEnv(ctx, host);
    var dir := match ctx.cwd case Some(d) => d case None => ctx.rootPath;
    c := Command(resolvedProgram, args, true, env, Some(dir));
  }

  // ------------------------------------------------------------ properties

  /** The rewrite is decided on the lowercased name, so it ignores case, and
      the original spelling is what cmd receives. */
  lemma ShellRewriteIgnoresCase(a: string, b: string)
    requires ToLower(a) == ToLower(b)
    ensures NeedsShell(a) <==> NeedsShell(b)
  {
  }

  /** Upper-case builtins and batch files are wrapped. */
  lemma ShellRewriteExamples()
    ensures NeedsShell("ECHO") && NeedsShell("Ver") && NeedsShell("build.BAT")
  {
    assert ToLower("ECHO") == "echo" == BUILTINS[0];
    assert ToLower("Ver") == "ver" == BUILTINS[10];
    assert ToLower("build.BAT") == "build.bat";
    assert ToLower("build.BAT")[5..] == ".bat";
  }

  /** "cmd" itself and an ordinary program run as they are. */
  lemma NoRewriteExamples()
    ensures !NeedsShell("cmd") && !NeedsShell("git")
  {
    assert ToLower("cmd") == "cmd";
    assert ToLower("git") == "git";
    assert forall b <- BUILTINS :: b[0] != 'c' || b[1] != 'm';
    assert forall b <- BUILTINS :: b[0] != 'g';
  }

  /** With the network denied the four proxy variables always hold their
      dead-end values, whatever the caller or the host supplied. */
  lemma DeniedNetworkForcesProxies(ctx: ExecutionContext, host: HostView)
    requires !ctx.allowNetwork
    ensures forall k <- PROXY_VARS :: k in WindowsEnv(ctx, host)
    ensures WindowsEnv(ctx, host)["HTTP_PROXY"] == DEAD_HTTP_PROXY
    ensures WindowsEnv(ctx, host)["HTTPS_PROXY"] == DEAD_HTTP_PROXY
    ensures WindowsEnv(ctx, host)["ALL_PROXY"] == DEAD_SOCKS_PROXY
    ensures WindowsEnv(ctx, host)["NO_PROXY"] == ""
  {
  }

  /** No proxy variable is among the critical ones, so with the network
      allowed a proxy variable comes only from the caller. */
  lemma AllowedNetworkLeavesProxies(ctx: ExecutionContext, host: HostView, k: string)
    requires ctx.allowNetwork && k in PROXY_VARS
    ensures k in WindowsEnv(ctx, host) <==> k in ctx.envVars
    ensures k in ctx.envVars ==> WindowsEnv(ctx, host)[k] == ctx.envVars[k]
  {
    assert k[0] == 'H' || k[0] == 'A' || k[0] == 'N';
    assert forall v <- CRITICAL_VARS :: v[0] != 'H' && v[0] != 'A' && v[0] != 'N';
  }

  /** Any other variable is present iff the caller sets it or it is critical
      and set on the host; the caller's value wins. */
  lemma EnvWhitelist(ctx: ExecutionContext, host: HostView, k: string)
    requires k !in PROXY_VARS
    ensures k in WindowsEnv(ctx, host) <==> k in ctx.envVars || (k in CRITICAL_VARS && k in host.env)
    ensures k in ctx.envVars ==> WindowsEnv(ctx, host)[k] == ctx.envVars[k]
  {
  }
}

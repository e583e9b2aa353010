/** MacOsSandboxStrategy::build_command (native/src/strategies/macos.rs):
    runs the command under sandbox-exec with a Seatbelt profile that allows
    everything except writes outside the workspace and a few scratch and
    cache directories, and that allows or denies the network. */
module StrategyMacos {
  import opened Wrappers
  import opened StrategyBase

  const SANDBOX_EXEC: string := "/usr/bin/sandbox-exec"
  const SANDBOX_EXEC_MISSING: string := "sandbox-exec not found on this system"

  /** $HOME of the launcher, or /var/tmp when it is unset. */
  function Home(host: HostView): (home: string)
    ensures "HOME" in host.env ==> home == host.env["HOME"]
    ensures "HOME" !in host.env ==> home == "/var/tmp"
  {
    if "HOME" in host.env then host.env["HOME"] else "/var/tmp"
  }

  const ALLOW_NETWORK: string := "(allow network*)"
  const DENY_NETWORK: string := "(deny network*)"

  function NetworkPolicy(allowNetwork: bool): string {
    if allowNetwork then ALLOW_NETWORK else DENY_NETWORK
  }

  /** The profile template's own indentation: 12 spaces for rules, 16 for
      the paths inside the write allowance. */
  const INDENT: string := "            "
  const PATH_INDENT: string := "                "

  const DENY_ALL_WRITES: string := "(deny file-write* (subpath \"/\"))"
  const ALLOW_WRITES: string := "(allow file-write*"

  function Subpath(path: string): string {
    PATH_INDENT + "(subpath \"" + path + "\")"
  }

  /** The directories the child may write to, in profile order. */
  function WritablePaths(workspace: string, home: string): seq<string> {
    [workspace, "/private/var/folders", "/tmp", "/var/tmp", "/Users/Shared",
     home + "/.m2", home + "/.gradle", home + "/.dart_tool"]
  }

  /** The profile, line by line, as the template lays it out. */
  function ProfileLines(workspace: string, home: string, policy: string): seq<string> {
    ["", INDENT + "(version 1)", INDENT + "(allow default)", INDENT,
     INDENT + DENY_ALL_WRITES, "",
     INDENT + ALLOW_WRITES]
    + Subpaths(WritablePaths(workspace, home))
    + [INDENT + ")", "",
       INDENT + policy, INDENT,
       INDENT + "(allow process-exec)", INDENT + "(allow process-fork)", INDENT + "(allow mach-lookup)", INDENT]
  }

  function Subpaths(paths: seq<string>): (lines: seq<string>)
    ensures |lines| == |paths| && forall i :: 0 <= i < |paths| ==> lines[i] == Subpath(paths[i])
  {
    seq(|paths|, i requires 0 <= i < |paths| => Subpath(paths[i]))
  }

  /** Lines joined with "\n", as the multi-line literal is. */
  function JoinLines(lines: seq<string>): string
    decreases |lines|
  {
    if |lines| == 0 then ""
    else if |lines| == 1 then lines[0]
    else JoinLines(lines[..|lines| - 1]) + "\n" + lines[|lines| - 1]
  }

  function Profile(workspace: string, home: string, allowNetwork: bool): string {
    JoinLines(ProfileLines(workspace, home, NetworkPolicy(allowNetwork)))
  }

  /** The child's environment: the launcher's, then the context's over it. */
  function MacosEnv(ctx: ExecutionContext, host: HostView): map<string, string> {
    host.env + ctx.envVars
  }

  /** build_command: fails when sandbox-exec is missing; otherwise
      sandbox-exec -p <profile> cmd args..., a cleared environment refilled
      with MacosEnv, and ctx.cwd or the workspace root as working directory. */
  method BuildCommand(ctx: ExecutionContext, host: HostView) returns (r: Result<Command, string>)
    ensures r.Failure? <==> SANDBOX_EXEC !in host.existing
    ensures r.Failure? ==> r.error == SANDBOX_EXEC_MISSING
    ensures r.Success? ==>
      r.value.program == SANDBOX_EXEC
      && r.value.args == ["-p", Profile(ctx.rootPath, Home(host), ctx.allowNetwork), ctx.cmd] + ctx.args
      && r.value.envClear && r.value.env == MacosEnv(ctx, host)
      && r.value.currentDir == Some(CwdOrRoot(ctx))
  {
    if SANDBOX_EXEC !in host.existing {
      return Failure(SANDBOX_EXEC_MISSING);
    }
    var home := if "HOME" in host.env then host.env["HOME"] else "/var/tmp";
    var networkPolicy := if ctx.allowNetwork then ALLOW_NETWORK else DENY_NETWORK;
    var profile := JoinLines(ProfileLines(ctx.rootPath, home, networkPolicy));
    var args := ["-p", profile];
    args := args + [ctx.cmd] + ctx.args;
    var env: map<string, string> := map[];
    env := Envs(env, host.env);
    env := Envs(env, ctx.envVars);
    var dir := match ctx.cwd case Some(d) => d case None => ctx.rootPath;
    r := Success(Command(SANDBOX_EXEC, args, true, env, Some(dir)));
  }

  // ------------------------------------------------------------ properties

  /** The layout of the profile: a blanket write denial at line 4, the write
      allowance at 6 listing exactly the writable paths (workspace first),
      closed at 15, and the network rule at 17. Seatbelt lets the last
      matching rule win, so the allowance, coming after the denial,
      overrides it for those paths. */
  lemma ProfileLayout(workspace: string, home: string, allowNetwork: bool)
    ensures var lines := ProfileLines(workspace, home, NetworkPolicy(allowNetwork));
      |lines| == 23
      && lines[4] == INDENT + DENY_ALL_WRITES
      && lines[6] == INDENT + ALLOW_WRITES
      && lines[7..15] == Subpaths(WritablePaths(workspace, home))
      && lines[7] == Subpath(workspace)
      && lines[15] == INDENT + ")"
      && lines[17] == INDENT + NetworkPolicy(allowNetwork)
  {
    var lines := ProfileLines(workspace, home, NetworkPolicy(allowNetwork));
    var head := ["", INDENT + "(version 1)", INDENT + "(allow default)", INDENT,
                 INDENT + DENY_ALL_WRITES, "", INDENT + ALLOW_WRITES];
    var mid := Subpaths(WritablePaths(workspace, home));
    assert |head| == 7 && |mid| == 8;
    assert lines[7..15] == mid;
  }

  /** Exactly one network rule is in the profile, and it is the one the
      context asks for: the allow rule is present iff the network is
      allowed, the deny rule iff it is not. */
  lemma NetworkRuleMatchesPolicy(workspace: string, home: string, allowNetwork: bool)
    ensures var lines := ProfileLines(workspace, home, NetworkPolicy(allowNetwork));
      (INDENT + ALLOW_NETWORK in lines <==> allowNetwork)
      && (INDENT + DENY_NETWORK in lines <==> !allowNetwork)
  {
    var lines := ProfileLines(workspace, home, NetworkPolicy(allowNetwork));
    ProfileLayout(workspace, home, allowNetwork);
    var allowLine, denyLine := INDENT + ALLOW_NETWORK, INDENT + DENY_NETWORK;
    assert |allowLine| == 28 && |denyLine| == 27;
    assert allowLine[13] == 'a' && denyLine[13] == 'd';
    forall i | 0 <= i < |lines| && i != 17
      ensures lines[i] != allowLine && lines[i] != denyLine
    {
      if 7 <= i < 15 {
        assert lines[i] == Subpath(WritablePaths(workspace, home)[i - 7]);
        assert lines[i][12] == ' ' && allowLine[12] == '(' && denyLine[12] == '(';
      } else if i == 2 {
        assert lines[i][13] == 'a';
      } else {
        assert |lines[i]| != 28 && |lines[i]| != 27;
      }
    }
  }

  /** piece occurs somewhere in text. */
  predicate Occurs(piece: string, text: string) {
    exists i :: 0 <= i <= |text| && StartsWith(text[i..], piece)
  }

  /** Every line after the first appears in the joined text right after a
      newline, so each rule of ProfileLines is in the profile text. */
  lemma {:induction false} JoinedLineFollowsNewline(lines: seq<string>, k: nat)
    requires 0 < k < |lines|
    ensures Occurs("\n" + lines[k], JoinLines(lines))
    decreases |lines|
  {
    var n := |lines|;
    var prefix := lines[..n - 1];
    var text := JoinLines(lines);
    assert text == JoinLines(prefix) + "\n" + lines[n - 1];
    if k == n - 1 {
      var i := |JoinLines(prefix)|;
      assert text[i..] == "\n" + lines[k];
    } else {
      JoinedLineFollowsNewline(prefix, k);
      assert prefix[k] == lines[k];
      var i :| 0 <= i <= |JoinLines(prefix)| && StartsWith(JoinLines(prefix)[i..], "\n" + lines[k]);
      assert text[i..] == JoinLines(prefix)[i..] + "\n" + lines[n - 1];
    }
  }

  /** The workspace path and the network rule are spelt out verbatim, each
      on a line of its own, in the profile text handed to sandbox-exec. */
  lemma ProfileTextNamesWorkspaceAndPolicy(workspace: string, home: string, allowNetwork: bool)
    ensures Occurs("\n" + Subpath(workspace), Profile(workspace, home, allowNetwork))
    ensures Occurs("\n" + INDENT + NetworkPolicy(allowNetwork), Profile(workspace, home, allowNetwork))
  {
    var lines := ProfileLines(workspace, home, NetworkPolicy(allowNetwork));
    ProfileLayout(workspace, home, allowNetwork);
    JoinedLineFollowsNewline(lines, 7);
    JoinedLineFollowsNewline(lines, 17);
    assert "\n" + INDENT + NetworkPolicy(allowNetwork) == "\n" + lines[17];
  }

  /** Every context variable reaches the child with the context's value, and
      every other launcher variable is passed through. */
  lemma EnvPassesThrough(ctx: ExecutionContext, host: HostView, k: string)
    ensures k in MacosEnv(ctx, host) <==> k in host.env || k in ctx.envVars
    ensures k in ctx.envVars ==> MacosEnv(ctx, host)[k] == ctx.envVars[k]
    ensures k !in ctx.envVars && k in host.env ==> MacosEnv(ctx, host)[k] == host.env[k]
  {
  }
}

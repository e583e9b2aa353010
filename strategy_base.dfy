/** What the Rust isolation strategies share (native/src/strategies/base.rs):
    the execution context they read, the command record they produce, and a
    read-only view of the host they consult (environment, filesystem, PATH
    lookup). A std::process::Command is modelled by what it would run: the
    program, the ordered arguments, whether the inherited environment is
    cleared, the variables set explicitly, and the working directory. */
module StrategyBase {
  import opened Wrappers

  /** ExecutionContext (base.rs:8-18). */
  datatype ExecutionContext = ExecutionContext(
    id: string, rootPath: string, cmd: string, args: seq<string>,
    envVars: map<string, string>, cwd: Option<string>, allowNetwork: bool)

  /** A built command. With envClear the child sees exactly env; without it,
      the launcher's environment overlaid by env. currentDir None means the
      launcher's own working directory. */
  datatype Command = Command(
    program: string, args: seq<string>, envClear: bool, env: map<string, string>, currentDir: Option<string>)

  /** The host as the strategies observe it: env::var (unset or non-Unicode
      variables are absent), the paths that exist, the paths read_link
      succeeds on, canonicalize results, and which() results. */
  datatype HostView = HostView(
    env: map<string, string>, existing: set<string>, symlinks: set<string>,
    canonical: map<string, string>, which: map<string, string>)

  /** The environment the child process starts with. */
  function EffectiveEnv(c: Command, launcherEnv: map<string, string>): (env: map<string, string>)
    ensures forall k :: k in env <==> k in c.env || (!c.envClear && k in launcherEnv)
    ensures forall k :: k in c.env ==> env[k] == c.env[k]
  {
    if c.envClear then c.env else launcherEnv + c.env
  }

  predicate StartsWith(s: string, prefix: string) {
    |prefix| <= |s| && s[..|prefix|] == prefix
  }

  predicate EndsWith(s: string, suffix: string) {
    |suffix| <= |s| && s[|s| - |suffix|..] == suffix
  }

  /** ASCII case folding: str::to_lowercase on ASCII text. */
  function AsciiLower(c: char): (l: char)
    ensures 'A' <= c <= 'Z' ==> l as int == c as int + 32
    ensures !('A' <= c <= 'Z') ==> l == c
  {
    if 'A' <= c <= 'Z' then (c as int + 32) as char else c
  }

  function ToLower(s: string): (l: string)
    ensures |l| == |s|
    ensures forall i :: 0 <= i < |s| ==> l[i] == AsciiLower(s[i])
  {
    seq(|s|, i requires 0 <= i < |s| => AsciiLower(s[i]))
  }

  /** Lowercasing is idempotent, so a name that is already lower case is its
      own lowercase form. */
  lemma ToLowerIdempotent(s: string)
    ensures ToLower(ToLower(s)) == ToLower(s)
  {
  }

  /** The program the Windows and host strategies run: "cmd" as it is, any
      other name through which(), falling back to the bare name. */
  function Resolve(program: string, which: map<string, string>): (resolved: string)
    ensures program == "cmd" ==> resolved == "cmd"
    ensures program != "cmd" && program in which ==> resolved == which[program]
    ensures program != "cmd" && program !in which ==> resolved == program
  {
    if program == "cmd" then "cmd"
    else if program in which then which[program]
    else program
  }

  /** The working directory of the Windows, macOS and host strategies:
      ctx.cwd when given, otherwise the workspace root. */
  function CwdOrRoot(ctx: ExecutionContext): (dir: string)
    ensures ctx.cwd.Some? ==> dir == ctx.cwd.value
    ensures ctx.cwd.None? ==> dir == ctx.rootPath
  {
    match ctx.cwd
    case Some(d) => d
    case None => ctx.rootPath
  }

  /** Command::envs over a HashMap: one env() call per entry, in the map's
      unspecified iteration order; each call sets (or replaces) one variable. */
  method Envs(env: map<string, string>, vars: map<string, string>) returns (result: map<string, string>)
    ensures result == env + vars
    ensures forall k :: k in result <==> k in env || k in vars
    ensures forall k :: k in vars ==> result[k] == vars[k]
    ensures forall k :: k in env && k !in vars ==> result[k] == env[k]
  {
    result := env;
    var pending := vars.Keys;
    while pending != {}
      invariant pending <= vars.Keys
      invariant result == env + (map k | k in vars.Keys - pending :: vars[k])
      decreases pending
    {
      var k :| k in pending;
      result := result[k := vars[k]];
      pending := pending - {k};
    }
    assert (map k | k in vars.Keys - pending :: vars[k]) == vars;
  }

  /** Copies the listed host variables that are set, in list order. */
  method CopyVars(env: map<string, string>, names: seq<string>, host: map<string, string>)
    returns (result: map<string, string>)
    ensures result == env + Whitelisted(names, host)
  {
    result := env;
    for i := 0 to |names|
      invariant result == env + Whitelisted(names[..i], host)
    {
      assert names[..i + 1][..i] == names[..i];
      assert Whitelisted(names[..i + 1], host)
          == if names[i] in host then Whitelisted(names[..i], host)[names[i] := host[names[i]]]
             else Whitelisted(names[..i], host);
      if names[i] in host {
        result := result[names[i] := host[names[i]]];
      }
    }
    assert names[..|names|] == names;
  }

  /** The listed host variables that are set. */
  function Whitelisted(names: seq<string>, host: map<string, string>): (kept: map<string, string>)
    ensures forall k :: k in kept <==> k in names && k in host
    ensures forall k :: k in kept ==> kept[k] == host[k]
    decreases |names|
  {
    if names == [] then map[]
    else
      var rest := Whitelisted(names[..|names| - 1], host);
      var k := names[|names| - 1];
      assert forall j :: j in names <==> j in names[..|names| - 1] || j == k;
      if k in host then rest[k := host[k]] else rest
  }

  /** Vec::insert: x placed at index i, the elements from i on shifted right. */
  function Insert(s: seq<string>, i: nat, x: string): (r: seq<string>)
    requires i <= |s|
    ensures |r| == |s| + 1 && r[i] == x && r[..i] == s[..i] && r[i + 1..] == s[i..]
  {
    s[..i] + [x] + s[i..]
  }

  /** The builtin rewrite of the Windows and host strategies:
      args.insert(0, "/c"), args.insert(1, program), program = "cmd". */
  method WrapWithCmd(program: string, args: seq<string>) returns (program': string, args': seq<string>)
    ensures program' == "cmd" && args' == ["/c", program] + args
  {
    args' := Insert(args, 0, "/c");
    args' := Insert(args', 1, program);
    program' := "cmd";
    assert args'[2..] == args;
  }
}

/** LinuxBwrapStrategy::build_command (native/src/strategies/linux.rs):
    bubblewrap with the host root passed through read-only, private
    scratch directories, optional DNS configuration and tool caches, the
    workspace bound read-write at its own path, a whitelisted environment,
    and "--" before the user's command. */
module StrategyLinux {
  import opened Wrappers
  import opened StrategyBase

  /** One bubblewrap option with its operands, e.g. --ro-bind SRC DEST. The
      argument vector is the options laid end to end; grouping them lets the
      properties speak of option flags rather than of arbitrary strings,
      which may come from user paths. */
  datatype BwrapOpt = BwrapOpt(flag: string, operands: seq<string>)

  function Flatten(opts: seq<BwrapOpt>): (args: seq<string>)
    ensures |opts| > 0 ==> |args| > 0 && args[0] == opts[0].flag
    decreases |opts|
  {
    if opts == [] then []
    else
      var last := opts[|opts| - 1];
      Flatten(opts[..|opts| - 1]) + [last.flag] + last.operands
  }

  lemma {:induction false} FlattenAppend(a: seq<BwrapOpt>, b: seq<BwrapOpt>)
    ensures Flatten(a + b) == Flatten(a) + Flatten(b)
    decreases |b|
  {
    if b == [] {
      assert a + b == a;
    } else {
      var last := b[|b| - 1];
      assert (a + b)[..|a + b| - 1] == a + b[..|b| - 1];
      FlattenAppend(a, b[..|b| - 1]);
    }
  }

  /** The option flags, in order. */
  function Flags(opts: seq<BwrapOpt>): (flags: seq<string>)
    ensures |flags| == |opts|
    ensures forall i :: 0 <= i < |opts| ==> flags[i] == opts[i].flag
  {
    seq(|opts|, i requires 0 <= i < |opts| => opts[i].flag)
  }

  const BWRAP_MISSING: string := "bwrap not found. Install with: sudo apt install bubblewrap"

  /** Lines 24-34: die with the parent, fresh pid/ipc/uts namespaces, and the
      network namespace shared or not. */
  function IsolationOpts(allowNetwork: bool): seq<BwrapOpt> {
    [BwrapOpt("--die-with-parent", []), BwrapOpt("--unshare-pid", []),
     BwrapOpt("--unshare-ipc", []), BwrapOpt("--unshare-uts", []),
     BwrapOpt(if allowNetwork then "--share-net" else "--unshare-net", [])]
  }

  /** Lines 36-50: the host root read-only, /dev and /proc, and fresh tmpfs
      over /tmp, /var/tmp, /root and /run. */
  function RootOpts(): seq<BwrapOpt> {
    [BwrapOpt("--ro-bind", ["/", "/"]), BwrapOpt("--dev", ["/dev"]), BwrapOpt("--proc", ["/proc"]),
     BwrapOpt("--tmpfs", ["/tmp"]), BwrapOpt("--tmpfs", ["/var/tmp"]),
     BwrapOpt("--tmpfs", ["/root"]), BwrapOpt("--tmpfs", ["/run"])]
  }

  const RESOLV_CONF: string := "/etc/resolv.conf"

  /** Path::parent of a canonical absolute path other than "/": everything
      before the last separator, or "/" when that separator is the first
      character. */
  function ParentDir(p: string): (parent: string)
    requires |p| > 1 && p[0] == '/'
    ensures |parent| < |p| && StartsWith(p, parent)
    decreases |p|
  {
    if p[|p| - 1] == '/' || |p| == 2 then (if p[|p| - 1] == '/' && |p| > 2 then p[..|p| - 1] else "/")
    else ParentDir(p[..|p| - 1])
  }

  /** Lines 52-73: a resolv.conf symlink whose canonical target lies under a
      path starting with "/run" is recreated: its parent directory, then the
      target bound read-only at its own path. A plain resolv.conf that exists
      is bound read-only. Any other case adds nothing. */
  function ResolvConfOpts(host: HostView): seq<BwrapOpt> {
    if RESOLV_CONF in host.symlinks then
      if RESOLV_CONF in host.canonical && StartsWith(host.canonical[RESOLV_CONF], "/run") then
        var target := host.canonical[RESOLV_CONF];
        [BwrapOpt("--dir", [ParentDir(target)]), BwrapOpt("--ro-bind", [target, target])]
      else []
    else if RESOLV_CONF in host.existing then
      [BwrapOpt("--ro-bind", [RESOLV_CONF, RESOLV_CONF])]
    else []
  }

  const TOOL_CACHES: seq<string> :=
    [".m2", ".gradle", ".npm", ".pub-cache", ".cargo", ".rustup", ".local/share/pnpm",
     "go/pkg", ".config/gcloud", ".flutter"]

  /** Path::join of a relative component: no separator is added after an
      empty base or one that already ends in '/'. */
  function Join(base: string, rel: string): string {
    if base == [] || base[|base| - 1] == '/' then base + rel else base + "/" + rel
  }

  /** The bind for one tool cache: the joined source path, mounted at the
      destination formatted as "{home}/{cache}". */
  function CacheBind(home: string, cache: string): BwrapOpt {
    BwrapOpt("--ro-bind", [Join(home, cache), home + "/" + cache])
  }

  /** Lines 93-102: one read-only bind per listed cache that exists, in list
      order. */
  function CacheOpts(home: string, caches: seq<string>, host: HostView): seq<BwrapOpt>
    decreases |caches|
  {
    if caches == [] then []
    else
      var c := caches[|caches| - 1];
      CacheOpts(home, caches[..|caches| - 1], host)
      + (if Join(home, c) in host.existing then [CacheBind(home, c)] else [])
  }

  /** Lines 75-104: when HOME is set and exists, it is hidden under a tmpfs
      and the existing tool caches are bound back read-only. */
  function HomeOpts(host: HostView): seq<BwrapOpt> {
    if "HOME" in host.env && host.env["HOME"] in host.existing then
      var home := host.env["HOME"];
      [BwrapOpt("--tmpfs", [home])] + CacheOpts(home, TOOL_CACHES, host)
    else []
  }

  /** Lines 106-111: the workspace root bound read-write at its own path and
      made the working directory. */
  function WorkspaceOpts(rootPath: string): seq<BwrapOpt> {
    [BwrapOpt("--bind", [rootPath, rootPath]), BwrapOpt("--chdir", [rootPath])]
  }

  function LinuxOpts(ctx: ExecutionContext, host: HostView): seq<BwrapOpt> {
    IsolationOpts(ctx.allowNetwork) + RootOpts() + ResolvConfOpts(host) + HomeOpts(host)
    + WorkspaceOpts(ctx.rootPath)
  }

  /** The whole argument vector after the bwrap program. */
  function LinuxArgs(ctx: ExecutionContext, host: HostView): seq<string> {
    Flatten(LinuxOpts(ctx, host)) + ["--", ctx.cmd] + ctx.args
  }

  const KEEP_VARS: seq<string> := ["PATH", "JAVA_HOME", "FLUTTER_ROOT", "GOPATH", "TERM", "LANG", "HOME", "SHELL"]

  /** Lines 113-131: a cleared environment, the whitelisted host variables
      that are set, then the context's variables on top. */
  function LinuxEnv(ctx: ExecutionContext, host: HostView): map<string, string> {
    Whitelisted(KEEP_VARS, host.env) + ctx.envVars
  }

  /** Lines 93-102 as the loop: appends one option per existing cache. */
  method AddCaches(ghost opts0: seq<BwrapOpt>, args0: seq<string>, home: string, host: HostView)
    returns (ghost opts: seq<BwrapOpt>, args: seq<string>)
    requires args0 == Flatten(opts0)
    ensures opts == opts0 + CacheOpts(home, TOOL_CACHES, host)
    ensures args == Flatten(opts)
  {
    opts, args := opts0, args0;
    for i := 0 to |TOOL_CACHES|
      invariant opts == opts0 + CacheOpts(home, TOOL_CACHES[..i], host)
      invariant args == Flatten(opts)
    {
      var cacheDir := TOOL_CACHES[i];
      var sourcePath := Join(home, cacheDir);
      assert TOOL_CACHES[..i + 1][..i] == TOOL_CACHES[..i];
      if sourcePath in host.existing {
        var destPath := home + "/" + cacheDir;
        FlattenAppend(opts, [CacheBind(home, cacheDir)]);
        opts := opts + [CacheBind(home, cacheDir)];
        args := args + ["--ro-bind", sourcePath, destPath];
      }
    }
    assert TOOL_CACHES[..|TOOL_CACHES|] == TOOL_CACHES;
  }

  /** Appends one option to both views of the argument vector. */
  method Arg(ghost opts0: seq<BwrapOpt>, args0: seq<string>, opt: BwrapOpt)
    returns (ghost opts: seq<BwrapOpt>, args: seq<string>)
    requires args0 == Flatten(opts0)
    ensures opts == opts0 + [opt] && args == Flatten(opts)
  {
    FlattenAppend(opts0, [opt]);
    opts := opts0 + [opt];
    args := args0 + [opt.flag] + opt.operands;
  }

  /** Lines 24-34. */
  method AddIsolation(ghost opts0: seq<BwrapOpt>, args0: seq<string>, allowNetwork: bool)
    returns (ghost opts: seq<BwrapOpt>, args: seq<string>)
    requires args0 == Flatten(opts0)
    ensures opts == opts0 + IsolationOpts(allowNetwork) && args == Flatten(opts)
  {
    opts, args := Arg(opts0, args0, BwrapOpt("--die-with-parent", []));
    opts, args := Arg(opts, args, BwrapOpt("--unshare-pid", []));
    opts, args := Arg(opts, args, BwrapOpt("--unshare-ipc", []));
    opts, args := Arg(opts, args, BwrapOpt("--unshare-uts", []));
    assert opts == opts0 + IsolationOpts(allowNetwork)[..4];
    if allowNetwork {
      opts, args := Arg(opts, args, BwrapOpt("--share-net", []));
    } else {
      opts, args := Arg(opts, args, BwrapOpt("--unshare-net", []));
    }
  }

  /** Lines 36-50. */
  method AddRoot(ghost opts0: seq<BwrapOpt>, args0: seq<string>)
    returns (ghost opts: seq<BwrapOpt>, args: seq<string>)
    requires args0 == Flatten(opts0)
    ensures opts == opts0 + RootOpts() && args == Flatten(opts)
  {
    opts, args := Arg(opts0, args0, BwrapOpt("--ro-bind", ["/", "/"]));
    opts, args := Arg(opts, args, BwrapOpt("--dev", ["/dev"]));
    opts, args := Arg(opts, args, BwrapOpt("--proc", ["/proc"]));
    opts, args := Arg(opts, args, BwrapOpt("--tmpfs", ["/tmp"]));
    opts, args := Arg(opts, args, BwrapOpt("--tmpfs", ["/var/tmp"]));
    opts, args := Arg(opts, args, BwrapOpt("--tmpfs", ["/root"]));
    opts, args := Arg(opts, args, BwrapOpt("--tmpfs", ["/run"]));
  }

  /** Lines 52-73. */
  method AddResolvConf(ghost opts0: seq<BwrapOpt>, args0: seq<string>, host: HostView)
    returns (ghost opts: seq<BwrapOpt>, args: seq<string>)
    requires args0 == Flatten(opts0)
    ensures opts == opts0 + ResolvConfOpts(host) && args == Flatten(opts)
  {
    opts, args := opts0, args0;
    if RESOLV_CONF in host.symlinks {
      if RESOLV_CONF in host.canonical {
        var realPath := host.canonical[RESOLV_CONF];
        if StartsWith(realPath, "/run") {
          opts, args := Arg(opts, args, BwrapOpt("--dir", [ParentDir(realPath)]));
          opts, args := Arg(opts, args, BwrapOpt("--ro-bind", [realPath, realPath]));
        }
      }
    } else if RESOLV_CONF in host.existing {
      opts, args := Arg(opts, args, BwrapOpt("--ro-bind", [RESOLV_CONF, RESOLV_CONF]));
    }
  }

  /** Lines 75-104. */
  method AddHome(ghost opts0: seq<BwrapOpt>, args0: seq<string>, host: HostView)
    returns (ghost opts: seq<BwrapOpt>, args: seq<string>)
    requires args0 == Flatten(opts0)
    ensures opts == opts0 + HomeOpts(host) && args == Flatten(opts)
  {
    opts, args := opts0, args0;
    if "HOME" in host.env {
      var home := host.env["HOME"];
      if home in host.existing {
        opts, args := Arg(opts, args, BwrapOpt("--tmpfs", [home]));
        opts, args := AddCaches(opts, args, home, host);
      }
    }
  }

  /** build_command: fails when bwrap is not on PATH; otherwise runs the
      resolved bwrap with LinuxArgs, a cleared environment holding LinuxEnv,
      and the launcher's own working directory. */
  method BuildCommand(ctx: ExecutionContext, host: HostView) returns (r: Result<Command, string>)
    ensures r.Failure? <==> "bwrap" !in host.which
    ensures r.Failure? ==> r.error == BWRAP_MISSING
    ensures r.Success? ==>
      r.value == Command(host.which["bwrap"], LinuxArgs(ctx, host), true, LinuxEnv(ctx, host), None)
  {
    if "bwrap" !in host.which {
      return Failure(BWRAP_MISSING);
    }
    var bwrapPath := host.which["bwrap"];
    var args := BuildArgs(ctx, host);
    var env := BuildEnv(ctx, host);
    return Success(Command(bwrapPath, args, true, env, None));
  }

  /** Lines 24-111 and 133-136: the options section by section, then "--",
      the command and its arguments. */
  method BuildArgs(ctx: ExecutionContext, host: HostView) returns (args: seq<string>)
    ensures args == LinuxArgs(ctx, host)
  {
    ghost var opts: seq<BwrapOpt> := [];
    args := [];
    opts, args := AddIsolation(opts, args, ctx.allowNetwork);
    opts, args := AddRoot(opts, args);
    opts, args := AddResolvConf(opts, args, host);
    opts, args := AddHome(opts, args, host);
    opts, args := Arg(opts, args, BwrapOpt("--bind", [ctx.rootPath, ctx.rootPath]));
    opts, args := Arg(opts, args, BwrapOpt("--chdir", [ctx.rootPath]));
    assert opts == LinuxOpts(ctx, host);
    args := args + ["--", ctx.cmd] + ctx.args;
  }

  /** Lines 113-131: clear, copy the whitelist, apply the context. */
  method BuildEnv(ctx: ExecutionContext, host: HostView) returns (env: map<string, string>)
    ensures env == LinuxEnv(ctx, host)
  {
    env := map[];
    env := CopyVars(env, KEEP_VARS, host.env);
    env := Envs(env, ctx.envVars);
  }

  // ------------------------------------------------------------ properties

  /** No option in the list is one of the two network flags. */
  predicate NoNetworkFlag(opts: seq<BwrapOpt>) {
    forall o :: o in opts ==> o.flag != "--share-net" && o.flag != "--unshare-net"
  }

  lemma FlagsAppend(a: seq<BwrapOpt>, b: seq<BwrapOpt>)
    ensures Flags(a + b) == Flags(a) + Flags(b)
  {
  }

  lemma NoNetworkFlagInFlags(opts: seq<BwrapOpt>)
    requires NoNetworkFlag(opts)
    ensures "--share-net" !in Flags(opts) && "--unshare-net" !in Flags(opts)
  {
  }

  /** Only the isolation section carries a network flag. */
  lemma RestHasNoNetworkFlag(ctx: ExecutionContext, host: HostView)
    ensures NoNetworkFlag(RootOpts() + ResolvConfOpts(host) + HomeOpts(host) + WorkspaceOpts(ctx.rootPath))
  {
    HomeFlags(host);
    assert NoNetworkFlag(RootOpts());
    assert NoNetworkFlag(ResolvConfOpts(host));
    assert NoNetworkFlag(WorkspaceOpts(ctx.rootPath));
  }

  /** The isolation section followed by any options without a network flag. */
  lemma NetworkFlagAfterIsolation(allowNetwork: bool, rest: seq<BwrapOpt>)
    requires NoNetworkFlag(rest)
    ensures var f := Flags(IsolationOpts(allowNetwork) + rest);
      && f[4] == (if allowNetwork then "--share-net" else "--unshare-net")
      && (("--unshare-net" in f) <==> !allowNetwork)
      && (("--share-net" in f) <==> allowNetwork)
  {
    var iso := IsolationOpts(allowNetwork);
    FlagsAppend(iso, rest);
    NoNetworkFlagInFlags(rest);
    assert Flags(iso) == ["--die-with-parent", "--unshare-pid", "--unshare-ipc", "--unshare-uts",
                          if allowNetwork then "--share-net" else "--unshare-net"];
  }

  /** The network namespace is shared iff the network is allowed: exactly one
      of the two flags is present among the option flags, and it is the fifth
      option. */
  lemma NetworkFlagMatchesPolicy(ctx: ExecutionContext, host: HostView)
    ensures Flags(LinuxOpts(ctx, host))[4] == (if ctx.allowNetwork then "--share-net" else "--unshare-net")
    ensures ("--unshare-net" in Flags(LinuxOpts(ctx, host))) <==> !ctx.allowNetwork
    ensures ("--share-net" in Flags(LinuxOpts(ctx, host))) <==> ctx.allowNetwork
  {
    var rest := RootOpts() + ResolvConfOpts(host) + HomeOpts(host) + WorkspaceOpts(ctx.rootPath);
    assert LinuxOpts(ctx, host) == IsolationOpts(ctx.allowNetwork) + rest;
    RestHasNoNetworkFlag(ctx, host);
    NetworkFlagAfterIsolation(ctx.allowNetwork, rest);
  }

  /** Every option of the home section is a tmpfs or a read-only bind. */
  lemma HomeFlags(host: HostView)
    ensures forall o :: o in HomeOpts(host) ==> o.flag == "--tmpfs" || o.flag == "--ro-bind"
  {
    if "HOME" in host.env && host.env["HOME"] in host.existing {
      CacheOptsAreBinds(host.env["HOME"], TOOL_CACHES, host);
    }
  }

  /** Soundness of the cache binds: each one is the bind of a listed cache
      that exists. */
  lemma {:induction false} CacheOptsAreBinds(home: string, caches: seq<string>, host: HostView)
    ensures forall o :: o in CacheOpts(home, caches, host) ==>
      exists c :: c in caches && Join(home, c) in host.existing && o == CacheBind(home, c)
    decreases |caches|
  {
    if caches != [] {
      var init := caches[..|caches| - 1];
      CacheOptsAreBinds(home, init, host);
      forall o | o in CacheOpts(home, caches, host)
        ensures exists c :: c in caches && Join(home, c) in host.existing && o == CacheBind(home, c)
      {
        if o in CacheOpts(home, init, host) {
          var c :| c in init && Join(home, c) in host.existing && o == CacheBind(home, c);
          assert c in caches;
        } else {
          assert o == CacheBind(home, caches[|caches| - 1]);
        }
      }
    }
  }

  /** Completeness of the cache binds: every listed cache that exists is
      bound, read-only, from its joined path to "{home}/{cache}". */
  lemma {:induction false} ExistingCachesAreBound(home: string, caches: seq<string>, host: HostView)
    ensures forall c :: c in caches && Join(home, c) in host.existing ==> CacheBind(home, c) in CacheOpts(home, caches, host)
    decreases |caches|
  {
    if caches != [] {
      var init := caches[..|caches| - 1];
      ExistingCachesAreBound(home, init, host);
      forall c | c in caches && Join(home, c) in host.existing
        ensures CacheBind(home, c) in CacheOpts(home, caches, host)
      {
        if c != caches[|caches| - 1] {
          assert c in init;
        }
      }
    }
  }

  /** With HOME present the home directory is hidden first and exactly the
      existing listed caches come back; without it nothing about HOME is
      mounted. */
  lemma HomeSection(host: HostView)
    ensures "HOME" !in host.env || host.env["HOME"] !in host.existing ==> HomeOpts(host) == []
    ensures "HOME" in host.env && host.env["HOME"] in host.existing ==>
      var home := host.env["HOME"];
      && HomeOpts(host)[0] == BwrapOpt("--tmpfs", [home])
      && (forall c :: c in TOOL_CACHES ==> (CacheBind(home, c) in HomeOpts(host) <==> Join(home, c) in host.existing))
  {
    if "HOME" in host.env && host.env["HOME"] in host.existing {
      var home := host.env["HOME"];
      ExistingCachesAreBound(home, TOOL_CACHES, host);
      CacheOptsAreBinds(home, TOOL_CACHES, host);
      forall c | c in TOOL_CACHES && CacheBind(home, c) in HomeOpts(host)
        ensures Join(home, c) in host.existing
      {
        assert CacheBind(home, c) in CacheOpts(home, TOOL_CACHES, host);
        var c' :| c' in TOOL_CACHES && Join(home, c') in host.existing && CacheBind(home, c) == CacheBind(home, c');
      }
    }
  }

  /** The argument vector: host root read-only and scratch tmpfs first, the
      workspace bound at its own path and entered, then "--", the command and
      its arguments in order, last. */
  lemma ArgsLayout(ctx: ExecutionContext, host: HostView)
    ensures var opts := LinuxOpts(ctx, host);
      && opts[5..12] == RootOpts()
      && opts[|opts| - 2..] == WorkspaceOpts(ctx.rootPath)
    ensures var args := LinuxArgs(ctx, host);
      && |args| >= |ctx.args| + 7
      && args[|args| - |ctx.args| - 2..] == ["--", ctx.cmd] + ctx.args
      && args[|args| - |ctx.args| - 7..|args| - |ctx.args| - 2] == ["--bind", ctx.rootPath, ctx.rootPath, "--chdir", ctx.rootPath]
  {
    var opts := LinuxOpts(ctx, host);
    var init := opts[..|opts| - 2];
    assert opts == init + WorkspaceOpts(ctx.rootPath);
    FlattenAppend(init, WorkspaceOpts(ctx.rootPath));
    FlattenAppend([BwrapOpt("--bind", [ctx.rootPath, ctx.rootPath])], [BwrapOpt("--chdir", [ctx.rootPath])]);
    assert Flatten([BwrapOpt("--bind", [ctx.rootPath, ctx.rootPath])]) == ["--bind", ctx.rootPath, ctx.rootPath];
    assert Flatten(WorkspaceOpts(ctx.rootPath)) == ["--bind", ctx.rootPath, ctx.rootPath, "--chdir", ctx.rootPath];
  }

  /** The resolv.conf cases. */
  lemma ResolvConfCases(host: HostView)
    ensures RESOLV_CONF in host.symlinks && RESOLV_CONF in host.canonical
            && StartsWith(host.canonical[RESOLV_CONF], "/run") ==>
      var target := host.canonical[RESOLV_CONF];
      ResolvConfOpts(host) == [BwrapOpt("--dir", [ParentDir(target)]), BwrapOpt("--ro-bind", [target, target])]
    ensures RESOLV_CONF in host.symlinks
            && (RESOLV_CONF !in host.canonical || !StartsWith(host.canonical[RESOLV_CONF], "/run"))
            ==> ResolvConfOpts(host) == []
    ensures RESOLV_CONF !in host.symlinks ==>
      (ResolvConfOpts(host) == [BwrapOpt("--ro-bind", [RESOLV_CONF, RESOLV_CONF])] <==> RESOLV_CONF in host.existing)
  {
  }

  /** The child's environment: a variable is present iff the context sets it
      or it is whitelisted and set on the host, and the context's value wins;
      nothing else from the host leaks through. */
  lemma EnvWhitelist(ctx: ExecutionContext, host: HostView, k: string)
    ensures k in LinuxEnv(ctx, host) <==> k in ctx.envVars || (k in KEEP_VARS && k in host.env)
    ensures k in ctx.envVars ==> LinuxEnv(ctx, host)[k] == ctx.envVars[k]
    ensures k !in ctx.envVars && k in KEEP_VARS && k in host.env ==> LinuxEnv(ctx, host)[k] == host.env[k]
  {
  }
}

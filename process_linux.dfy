/** The in-process Linux launcher (native/src/linux/process_linux.cpp):
    ArgBuilder, the fixed bubblewrap prefix, the argument vector of
    StartProcessLinux and its descriptor and failure paths. */
module ProcessLinux {
  import opened Wrappers
  import opened CommandLine
  import opened InternalApi
  import opened OsModel

  /** The argument vector as execvp receives it: one pointer per string, in
      order, then a null terminator. */
  function Terminated(args: seq<string>): (ptrs: seq<Option<string>>)
  {
    seq(|args| + 1, k requires 0 <= k <= |args| => if k < |args| then Some(args[k]) else None)
  }

  /** Namespace isolation: every namespace unshared, a new session, and the
      sandbox dies with its parent. */
  function Namespaces(): seq<string> { ["--unshare-all", "--new-session", "--die-with-parent"] }

  /** An empty tmpfs root with /usr read-only. */
  function EmptyRoot(): seq<string> { ["--tmpfs", "/", "--ro-bind", "/usr", "/usr"] }

  /** The merged-usr symlinks /lib, /lib64, /bin and /sbin. */
  function UsrSymlinks(): seq<string> {
    ["--symlink", "usr/lib", "/lib", "--symlink", "usr/lib64", "/lib64",
     "--symlink", "usr/bin", "/bin", "--symlink", "usr/sbin", "/sbin"]
  }

  /** /proc, /dev and a private /tmp. */
  function Devices(): seq<string> { ["--proc", "/proc", "--dev", "/dev", "--tmpfs", "/tmp"] }

  /** DNS, hosts and certificate files, bound read-only when present. */
  function HostConfig(): seq<string> {
    ["--ro-bind-try", "/etc/resolv.conf", "/etc/resolv.conf",
     "--ro-bind-try", "/etc/hosts", "/etc/hosts",
     "--ro-bind-try", "/etc/ssl/certs", "/etc/ssl/certs"]
  }

  function NetworkFlag(allowNetwork: bool): string {
    if allowNetwork then "--share-net" else "--unshare-net"
  }

  /** Any pointer vector GetArgs can return is the terminated argument vector. */
  lemma TerminatedIsPointerVector(args: seq<string>, ptrs: seq<Option<string>>)
    requires |ptrs| == |args| + 1 && ptrs[|args|] == None
    requires forall k :: 0 <= k < |args| ==> ptrs[k] == Some(args[k])
    ensures ptrs == Terminated(args)
  {
  }

  /** The fixed bubblewrap prefix, in the order add_bwrap_base emits it. */
  function BwrapBase(allowNetwork: bool): seq<string> {
    ["bwrap"] + Namespaces() + EmptyRoot() + UsrSymlinks() + Devices() + HostConfig()
    + [NetworkFlag(allowNetwork)] + ["--cap-drop", "ALL"]
  }

  /** The prefix starts the program bwrap over an empty root, ends by dropping
      every capability, and carries exactly one network flag: the network
      namespace is shared iff the network is allowed. */
  lemma BwrapBaseShape(allowNetwork: bool)
    ensures var r := BwrapBase(allowNetwork);
      && |r| == 39
      && r[0] == "bwrap" && r[1] == "--unshare-all"
      && r[4] == "--tmpfs" && r[5] == "/"
      && r[|r| - 2..] == ["--cap-drop", "ALL"]
      && r[36] == NetworkFlag(allowNetwork)
      && (("--unshare-net" in r) <==> !allowNetwork)
      && (("--share-net" in r) <==> allowNetwork)
  {
    var fixed := ["bwrap"] + Namespaces() + EmptyRoot() + UsrSymlinks() + Devices() + HostConfig();
    assert BwrapBase(allowNetwork) == fixed + [NetworkFlag(allowNetwork), "--cap-drop", "ALL"];
    assert "--unshare-net" !in fixed && "--share-net" !in fixed;
  }

  /** Accumulates the strings of the argument vector. */
  class ArgBuilder {
    var storage: seq<string>

    constructor ()
      ensures storage == []
    {
      storage := [];
    }

    method Add(arg: string)
      modifies this
      ensures storage == old(storage) + [arg]
    {
      storage := storage + [arg];
    }

    /** getArgs: size() + 1 pointers, the stored strings in insertion order
        followed by a null pointer. */
    method GetArgs() returns (ptrs: seq<Option<string>>)
      ensures |ptrs| == |storage| + 1
      ensures ptrs[|storage|] == None
      ensures forall k :: 0 <= k < |storage| ==> ptrs[k] == Some(storage[k])
    {
      ptrs := [];
      for k := 0 to |storage|
        invariant |ptrs| == k
        invariant forall j :: 0 <= j < k ==> ptrs[j] == Some(storage[j])
      {
        ptrs := ptrs + [Some(storage[k])];
      }
      ptrs := ptrs + [None];
    }

    method AddAll(group: seq<string>)
      modifies this
      ensures storage == old(storage) + group
    {
      storage := storage + group;
    }

    /** add_bwrap_base: appends the prefix group by group. */
    method AddBwrapBase(allowNetwork: bool)
      modifies this
      ensures storage == old(storage) + BwrapBase(allowNetwork)
    {
      ghost var s0 := storage;
      Add("bwrap");
      AddAll(Namespaces());
      AddAll(EmptyRoot());
      AddAll(UsrSymlinks());
      AddAll(Devices());
      AddAll(HostConfig());
      ghost var fixed := ["bwrap"] + Namespaces() + EmptyRoot() + UsrSymlinks() + Devices() + HostConfig();
      assert storage == s0 + fixed;
      Add(NetworkFlag(allowNetwork));
      AddAll(["--cap-drop", "ALL"]);
      assert storage == s0 + (fixed + [NetworkFlag(allowNetwork)] + ["--cap-drop", "ALL"]);
    }
  }

  /** A working directory was given: the pointer is non-null and the string non-empty. */
  predicate HasCwd(cwd: Option<string>) { cwd.Some? && cwd.value != [] }

  /** The host working directory bound read-write at /app and entered. */
  function AppBind(dir: string): seq<string> { ["--bind", dir, "/app", "--chdir", "/app"] }

  /** What precedes the tokens under the sandbox: the bwrap prefix, then the
      /app binding only when a working directory is given. */
  function SandboxPrefix(cwd: Option<string>, allowNetwork: bool): seq<string> {
    BwrapBase(allowNetwork) + (if HasCwd(cwd) then AppBind(cwd.value) else [])
  }

  /** The strings StartProcessLinux executes: the tokens alone without a
      sandbox, otherwise the sandbox prefix and then the tokens. There is no
      "--" delimiter. */
  function LinuxArgv(parsed: seq<string>, cwd: Option<string>, sandbox: bool, allowNetwork: bool): seq<string>
  {
    if sandbox then SandboxPrefix(cwd, allowNetwork) + parsed else parsed
  }

  /** Lines 152-177: fill an ArgBuilder and take its pointer vector. */
  method AssembleArgv(parsed: seq<string>, cwd: Option<string>, sandbox: bool, allowNetwork: bool)
    returns (execArgs: seq<Option<string>>)
    ensures execArgs == Terminated(LinuxArgv(parsed, cwd, sandbox, allowNetwork))
  {
    var args := new ArgBuilder();
    if sandbox {
      args.AddBwrapBase(allowNetwork);
      if cwd.Some? && cwd.value != [] {
        args.AddAll(AppBind(cwd.value));
      }
      assert args.storage == SandboxPrefix(cwd, allowNetwork);
    }
    ghost var prefix := args.storage;
    for k := 0 to |parsed|
      invariant args.storage == prefix + parsed[..k]
    {
      args.Add(parsed[k]);
      assert parsed[..k + 1] == parsed[..k] + [parsed[k]];
    }
    assert parsed[..|parsed|] == parsed;
    execArgs := args.GetArgs();
    TerminatedIsPointerVector(args.storage, execArgs);
  }

  /** The sandboxed command runs as bwrap; otherwise the first token is the
      program. The tokens always come last and unchanged, after exactly 39
      prefix strings, or 44 when the working directory is bound at /app. */
  lemma {:induction false} ArgvFrame(parsed: seq<string>, cwd: Option<string>, sandbox: bool, allowNetwork: bool)
    requires parsed != []
    ensures var argv := LinuxArgv(parsed, cwd, sandbox, allowNetwork);
      && argv[0] == (if sandbox then "bwrap" else parsed[0])
      && argv[|argv| - |parsed|..] == parsed
      && (!sandbox ==> argv == parsed)
      && (sandbox ==> argv[..39] == BwrapBase(allowNetwork))
      && (sandbox && HasCwd(cwd) ==> |argv| == 44 + |parsed| && argv[39..44] == AppBind(cwd.value))
      && (sandbox && !HasCwd(cwd) ==> |argv| == 39 + |parsed|)
  {
    BwrapBaseShape(allowNetwork);
    var argv := LinuxArgv(parsed, cwd, sandbox, allowNetwork);
    if sandbox {
      var pre := SandboxPrefix(cwd, allowNetwork);
      assert argv == pre + parsed;
      assert argv[|argv| - |parsed|..] == parsed;
      assert pre[..39] == BwrapBase(allowNetwork);
      assert argv[..39] == pre[..39];
    }
  }

  /** What the forked child does, as far as the parent can tell: whether it
      writes an errno into the close-on-exec report pipe. A failed dup2 exits
      without writing; an unsandboxed child with a working directory reports a
      failed chdir; otherwise it reports a failed execvp. A successful execvp
      closes the write end, so the parent's read sees end-of-file. */
  datatype ChildOutcome = ChildOutcome(dup2Ok: bool, chdirOk: bool, execOk: bool)

  predicate ChildReportsError(child: ChildOutcome, cwd: Option<string>, sandbox: bool) {
    child.dup2Ok && ((HasCwd(cwd) && !sandbox && !child.chdirOk) || !child.execOk)
  }

  /** The results of the primitives StartProcessLinux calls, in order. */
  datatype PosixLaunchOutcome = PosixLaunchOutcome(
    pipeOut: bool, pipeErr: bool, pipeExec: bool, fork: bool, child: ChildOutcome)

  /** The launch yields no handle exactly on these paths. */
  predicate LaunchFails(parsed: seq<string>, cwd: Option<string>, sandbox: bool, os: PosixLaunchOutcome) {
    || parsed == []
    || !os.pipeOut || !os.pipeErr || !os.pipeExec || !os.fork
    || ChildReportsError(os.child, cwd, sandbox)
  }

  /** The descriptors of the three pipes: standard output, standard error
      and the child's exec-error report, each as (read end, write end). */
  datatype PipeSet = PipeSet(outRead: int, outWrite: int, errRead: int, errWrite: int,
                             execRead: int, execWrite: int)
  {
    function Fds(): set<int> { {outRead, outWrite, errRead, errWrite, execRead, execWrite} }

    predicate Distinct() {
      && outRead != outWrite && outRead != errRead && outRead != errWrite
      && outRead != execRead && outRead != execWrite
      && outWrite != errRead && outWrite != errWrite && outWrite != execRead && outWrite != execWrite
      && errRead != errWrite && errRead != execRead && errRead != execWrite
      && errWrite != execRead && errWrite != execWrite
      && execRead != execWrite
    }
  }

  /** Lines 182-192: create the three pipes in order; when one fails, close
      the ones already created and give up. */
  method OpenPipes(host: PosixHost, os: PosixLaunchOutcome) returns (pipes: Option<PipeSet>)
    requires host.Valid()
    modifies host
    ensures host.Valid()
    ensures pipes.Some? <==> os.pipeOut && os.pipeErr && os.pipeExec
    ensures pipes.None? ==> host.openFds == old(host.openFds)
    ensures pipes.Some? ==>
      && pipes.value.Distinct()
      && pipes.value.Fds() !! old(host.openFds)
      && host.openFds == old(host.openFds) + pipes.value.Fds()
    ensures host.children == old(host.children) && host.nonBlocking == old(host.nonBlocking)
  {
    var pOut := host.Pipe(os.pipeOut);
    if pOut.None? {
      return None;
    }
    var pErr := host.Pipe(os.pipeErr);
    if pErr.None? {
      host.Close(pOut.value.0);
      host.Close(pOut.value.1);
      return None;
    }
    var pExec := host.Pipe(os.pipeExec);
    if pExec.None? {
      host.Close(pOut.value.0);
      host.Close(pOut.value.1);
      host.Close(pErr.value.0);
      host.Close(pErr.value.1);
      return None;
    }
    pipes := Some(PipeSet(pOut.value.0, pOut.value.1, pErr.value.0, pErr.value.1,
                          pExec.value.0, pExec.value.1));
  }

  /** Lines 198-203: after a failed fork every pipe end is closed. */
  method CloseAllPipes(host: PosixHost, pipes: PipeSet)
    requires host.Valid()
    modifies host
    ensures host.Valid()
    ensures host.openFds == old(host.openFds) - pipes.Fds()
    ensures host.children == old(host.children) && host.nonBlocking == old(host.nonBlocking)
  {
    host.Close(pipes.outRead);
    host.Close(pipes.outWrite);
    host.Close(pipes.errRead);
    host.Close(pipes.errWrite);
    host.Close(pipes.execRead);
    host.Close(pipes.execWrite);
  }

  /** Lines 236-246: the parent closes its copies of the three write ends,
      reads the exec-error pipe to end-of-file or a report, and closes it. */
  method ParentReadsReport(host: PosixHost, pipes: PipeSet, child: ChildOutcome,
                           cwd: Option<string>, sandbox: bool)
    returns (reported: bool)
    requires host.Valid()
    modifies host
    ensures host.Valid()
    ensures reported == ChildReportsError(child, cwd, sandbox)
    ensures host.openFds == old(host.openFds) - {pipes.outWrite, pipes.errWrite, pipes.execWrite, pipes.execRead}
    ensures host.children == old(host.children) && host.nonBlocking == old(host.nonBlocking)
  {
    host.Close(pipes.outWrite);
    host.Close(pipes.errWrite);
    host.Close(pipes.execWrite);
    reported := ChildReportsError(child, cwd, sandbox);
    host.Close(pipes.execRead);
  }

  /** StartProcessLinux: returns null iff the command has no tokens, a pipe or
      the fork fails, or the child reported an error; every failure path closes
      every descriptor it opened and leaves no unreaped child, and success
      leaves exactly the two non-blocking read ends open in a running handle. */
  method StartProcessLinux(host: PosixHost, commandLine: Option<string>, cwd: Option<string>,
                           sandbox: bool, id: Option<string>, allowNetwork: bool,
                           os: PosixLaunchOutcome)
    returns (handle: PosixProcessHandle?)
    requires host.Valid()
    modifies host
    ensures host.Valid()
    ensures handle == null <==> LaunchFails(Tokenize(commandLine), cwd, sandbox, os)
    ensures Tokenize(commandLine) == [] ==> unchanged(host)
    ensures handle == null ==> host.openFds == old(host.openFds) && host.children == old(host.children)
    ensures handle != null ==>
      && fresh(handle)
      && handle.isRunning && handle.exitCode == -1
      && 0 <= handle.fdOut && 0 <= handle.fdErr && handle.fdOut != handle.fdErr
      && handle.fdOut !in old(host.openFds) && handle.fdErr !in old(host.openFds)
      && host.openFds == old(host.openFds) + {handle.fdOut, handle.fdErr}
      && handle.fdOut in host.nonBlocking && handle.fdErr in host.nonBlocking
      && handle.pid > 0 && handle.pid !in old(host.children)
      && host.children == old(host.children)[handle.pid :=
           Terminated(LinuxArgv(Tokenize(commandLine), cwd, sandbox, allowNetwork))]
  {
    var parsed := ParseCommandLine(commandLine);
    if parsed == [] {
      return null;
    }
    var execArgs := AssembleArgv(parsed, cwd, sandbox, allowNetwork);

    ghost var fds0 := host.openFds;
    ghost var children0 := host.children;
    var created := OpenPipes(host, os);
    if created.None? {
      return null;
    }
    var pipes := created.value;

    handle := ForkAndWait(host, pipes, execArgs, os, cwd, sandbox);
  }

  /** Lines 197-265, from the moment the three pipes exist: fork, let the
      parent learn whether the child started, and either clean up or hand
      out the two read ends. */
  method ForkAndWait(host: PosixHost, pipes: PipeSet, execArgs: seq<Option<string>>,
                     os: PosixLaunchOutcome, cwd: Option<string>, sandbox: bool)
    returns (handle: PosixProcessHandle?)
    requires host.Valid()
    requires pipes.Distinct() && pipes.Fds() <= host.openFds
    modifies host
    ensures host.Valid()
    ensures handle == null <==> !os.fork || ChildReportsError(os.child, cwd, sandbox)
    ensures handle == null ==> host.openFds == old(host.openFds) - pipes.Fds() && host.children == old(host.children)
    ensures handle != null ==>
      && fresh(handle)
      && handle.isRunning && handle.exitCode == -1
      && handle.fdOut == pipes.outRead && handle.fdErr == pipes.errRead
      && host.openFds == old(host.openFds) - {pipes.outWrite, pipes.errWrite, pipes.execRead, pipes.execWrite}
      && handle.fdOut in host.nonBlocking && handle.fdErr in host.nonBlocking
      && handle.pid > 0 && handle.pid !in old(host.children)
      && host.children == old(host.children)[handle.pid := execArgs]
  {
    var pid := host.Fork(os.fork, execArgs);
    if pid == -1 {
      CloseAllPipes(host, pipes);
      return null;
    }

    var reported := ParentReadsReport(host, pipes, os.child, cwd, sandbox);
    if reported {
      host.Close(pipes.outRead);
      host.Close(pipes.errRead);
      host.Reap(pid);
      return null;
    }

    host.SetNonblocking(pipes.outRead);
    host.SetNonblocking(pipes.errRead);

    handle := new PosixProcessHandle();
    handle.pid := pid;
    handle.fdOut := pipes.outRead;
    handle.fdErr := pipes.errRead;
    handle.isRunning := true;
    handle.exitCode := -1;
  }
}

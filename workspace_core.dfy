/** The C bridge the Dart side calls (native/src/workspace_core.cpp):
    workspace_start, workspace_read_stdout/stderr, workspace_is_running,
    workspace_kill and workspace_free_handle, in their POSIX and Windows
    forms. A null ProcessHandle* is a null reference. The optional
    exit_code out-pointer is modelled as an out-parameter that always
    carries the value the bridge would store. */
module WorkspaceCore {
  import opened Wrappers
  import opened CommandLine
  import opened InternalApi
  import opened OsModel
  import ProcessLinux
  import ProcessWin

  /** WorkspaceOptionsC: C strings may be null; the two flags are int32_t. */
  datatype WorkspaceOptions = WorkspaceOptions(
    commandLine: Option<string>, cwd: Option<string>, sandbox: int, id: Option<string>, allowNetwork: int)

  /** workspace_start (POSIX): null options or a null command line give null
      without touching the host; otherwise StartProcessLinux with the int32
      flags read as "non-zero". */
  method WorkspaceStart(host: PosixHost, options: Option<WorkspaceOptions>, os: ProcessLinux.PosixLaunchOutcome)
    returns (handle: PosixProcessHandle?)
    requires host.Valid()
    modifies host
    ensures host.Valid()
    ensures options.None? || options.value.commandLine.None? ==> handle == null && unchanged(host)
    ensures options.Some? && options.value.commandLine.Some? ==>
      var o := options.value;
      && (handle == null <==> ProcessLinux.LaunchFails(Tokenize(o.commandLine), o.cwd, o.sandbox != 0, os))
      && (handle == null ==> host.openFds == old(host.openFds) && host.children == old(host.children))
      && (handle != null ==>
            && fresh(handle) && handle.isRunning && handle.exitCode == -1
            && 0 <= handle.fdOut && 0 <= handle.fdErr && handle.fdOut != handle.fdErr
            && {handle.fdOut, handle.fdErr} !! old(host.openFds)
            && host.openFds == old(host.openFds) + {handle.fdOut, handle.fdErr}
            && host.children == old(host.children)[handle.pid :=
                 ProcessLinux.Terminated(ProcessLinux.LinuxArgv(Tokenize(o.commandLine), o.cwd,
                                                                o.sandbox != 0, o.allowNetwork != 0))])
  {
    if options.None? || options.value.commandLine.None? {
      return null;
    }
    var o := options.value;
    handle := ProcessLinux.StartProcessLinux(host, o.commandLine, o.cwd, o.sandbox != 0, o.id, o.allowNetwork != 0, os);
  }

  /** workspace_start (Windows): the same guard, then StartProcessWindows. */
  method WorkspaceStartWin(host: WinHost, options: Option<WorkspaceOptions>, os: ProcessWin.WinLaunchOutcome)
    returns (handle: WindowsProcessHandle?)
    requires host.Valid()
    modifies host
    ensures host.Valid()
    ensures options.None? || options.value.commandLine.None? ==> handle == null && unchanged(host)
    ensures options.Some? && options.value.commandLine.Some? ==>
      var o := options.value;
      && host.liveSids == old(host.liveSids)
      && (handle == null <==> !os.pipeOut || !os.pipeErr || !os.createOk)
      && (handle == null ==> host.openHandles == old(host.openHandles))
      && (handle != null ==>
            && fresh(handle) && handle.isRunning && handle.exitCode == -1 && handle.hThread == ProcessWin.NULL
            && ProcessWin.IsLive(handle.hProcess) && ProcessWin.IsLive(handle.hOutRead) && ProcessWin.IsLive(handle.hErrRead)
            && {handle.hProcess, handle.hOutRead, handle.hErrRead} !! old(host.openHandles)
            && host.openHandles == old(host.openHandles) + {handle.hProcess, handle.hOutRead, handle.hErrRead}
            && host.processes == old(host.processes)[handle.hProcess :=
                 ProcessWin.LaunchOf(o.commandLine, o.cwd,
                                     ProcessWin.RunsRestricted(o.cwd, o.sandbox != 0, o.id, os.container))])
  {
    if options.None? || options.value.commandLine.None? {
      return null;
    }
    var o := options.value;
    handle := ProcessWin.StartProcessWindows(host, o.commandLine, o.cwd, o.sandbox != 0, o.id, o.allowNetwork != 0, os);
  }

  // ---------------------------------------------------------------- reads

  /** errno values of Linux that a non-blocking read reports as "try again". */
  const EINTR: int := 4
  const EAGAIN: int := 11
  const EWOULDBLOCK: int := EAGAIN

  /** What read(2) on a descriptor returns: a byte count, or -1 with errno. */
  datatype ReadOutcome = ReadBytes(count: nat) | ReadError(errno: int)

  /** The bridge's read result: the byte count when data arrived, -1 when the
      read would block or was interrupted, and 0 both at end of file and for
      every other error. */
  function ClassifyRead(r: ReadOutcome): (n: int)
    ensures n > 0 <==> r.ReadBytes? && r.count > 0
    ensures n > 0 ==> n == r.count
    ensures n == -1 <==> r.ReadError? && (r.errno == EAGAIN || r.errno == EWOULDBLOCK || r.errno == EINTR)
    ensures n >= -1
  {
    match r
    case ReadBytes(count) => count
    case ReadError(errno) => if errno == EAGAIN || errno == EWOULDBLOCK || errno == EINTR then -1 else 0
  }

  /** The caller cannot tell end of file from a failed read such as a bad
      descriptor (EBADF, 9): both read as 0. */
  lemma EndOfFileAndErrorLookAlike()
    ensures ClassifyRead(ReadBytes(0)) == ClassifyRead(ReadError(9)) == 0
  {
  }

  /** workspace_read_stdout (POSIX): 0 for a null handle, otherwise the
      classified read of the handle's stdout descriptor; read(fd) is what the
      kernel returns for that descriptor. */
  function ReadStdout(handle: PosixProcessHandle?, read: int -> ReadOutcome): (n: int)
    reads handle
    ensures handle == null ==> n == 0
    ensures handle != null ==> n == ClassifyRead(read(handle.fdOut))
  {
    if handle == null then 0 else ClassifyRead(read(handle.fdOut))
  }

  /** workspace_read_stderr (POSIX): the same on the stderr descriptor. */
  function ReadStderr(handle: PosixProcessHandle?, read: int -> ReadOutcome): (n: int)
    reads handle
    ensures handle == null ==> n == 0
    ensures handle != null ==> n == ClassifyRead(read(handle.fdErr))
  {
    if handle == null then 0 else ClassifyRead(read(handle.fdErr))
  }

  /** The two streams are read independently: each result depends only on
      what the kernel returns for its own descriptor, and a positive result is
      exactly the number of bytes that descriptor delivered. */
  lemma StreamsAreIndependent(handle: PosixProcessHandle, read1: int -> ReadOutcome, read2: int -> ReadOutcome)
    requires read1(handle.fdOut) == read2(handle.fdOut)
    ensures ReadStdout(handle, read1) == ReadStdout(handle, read2)
    ensures ReadStdout(handle, read1) > 0 <==> read1(handle.fdOut).ReadBytes? && read1(handle.fdOut).count > 0
  {
  }

  /** workspace_read_stdout (Windows): ReadPipeWin on the stdout read end,
      or 0 when the handle or that read end is null. */
  function ReadStdoutWin(handle: WindowsProcessHandle?, bufIsNull: bool, size: int,
                         peek: ProcessWin.PeekResult, read: ProcessWin.ReadFileResult): (n: int)
    reads handle
    ensures handle == null || handle.hOutRead == ProcessWin.NULL ==> n == 0
    ensures handle != null && handle.hOutRead != ProcessWin.NULL ==>
      n == ProcessWin.ReadPipeWin(handle.hOutRead, bufIsNull, size, peek, read)
  {
    if handle != null && handle.hOutRead != ProcessWin.NULL
    then ProcessWin.ReadPipeWin(handle.hOutRead, bufIsNull, size, peek, read)
    else 0
  }

  /** workspace_read_stderr (Windows). */
  function ReadStderrWin(handle: WindowsProcessHandle?, bufIsNull: bool, size: int,
                         peek: ProcessWin.PeekResult, read: ProcessWin.ReadFileResult): (n: int)
    reads handle
    ensures handle == null || handle.hErrRead == ProcessWin.NULL ==> n == 0
    ensures handle != null && handle.hErrRead != ProcessWin.NULL ==>
      n == ProcessWin.ReadPipeWin(handle.hErrRead, bufIsNull, size, peek, read)
  {
    if handle != null && handle.hErrRead != ProcessWin.NULL
    then ProcessWin.ReadPipeWin(handle.hErrRead, bufIsNull, size, peek, read)
    else 0
  }

  /** A missing pipe is reported as "no data" (0) on Windows, while
      ReadPipeWin itself would call it an error (-1). */
  lemma NullPipeIsNoData(handle: WindowsProcessHandle, sz: int, peek: ProcessWin.PeekResult, read: ProcessWin.ReadFileResult)
    requires handle.hOutRead == ProcessWin.NULL
    ensures ReadStdoutWin(handle, false, sz, peek, read) == 0
    ensures ProcessWin.ReadPipeWin(handle.hOutRead, false, sz, peek, read) == -1
  {
  }

  // ------------------------------------------------------ exit status

  /** The glibc wait-status macros on a 16-bit status word. */
  predicate WIfExited(status: nat) { status % 128 == 0 }
  function WExitStatus(status: nat): int { (status / 256) % 256 }
  predicate WIfSignaled(status: nat) { status % 128 != 0 && status % 128 != 127 }
  function WTermSig(status: nat): int { status % 128 }

  /** Lines 130-136: a normal exit gives its status, death by a signal gives
      -128 plus the signal number, anything else -1. The three ranges are
      disjoint: 0..255, -127..-2 and -1. */
  function ExitCodeOf(status: nat): (code: int)
    ensures WIfExited(status) ==> 0 <= code <= 255 && code == WExitStatus(status)
    ensures WIfSignaled(status) ==> -127 <= code <= -2 && code + 128 == WTermSig(status)
    ensures !WIfExited(status) && !WIfSignaled(status) ==> code == -1
  {
    if WIfExited(status) then WExitStatus(status)
    else if WIfSignaled(status) then -128 + WTermSig(status)
    else -1
  }

  /** The exit code can be decoded back: its range tells how the child
      ended, and it gives back the exit status or the signal. */
  lemma ExitCodeDecodes(status: nat)
    ensures ExitCodeOf(status) >= 0 <==> WIfExited(status)
    ensures -127 <= ExitCodeOf(status) <= -2 <==> WIfSignaled(status)
    ensures ExitCodeOf(status) == -1 <==> !WIfExited(status) && !WIfSignaled(status)
  {
  }

  /** Round trip from the kernel's encoding: exit(e) is reported as e, and
      death by signal s (1..126, no core dump) as s - 128. */
  lemma ExitCodeRoundTrip(e: nat, sig: nat)
    requires e < 256 && 1 <= sig <= 126
    ensures ExitCodeOf(e * 256) == e
    ensures ExitCodeOf(sig) == sig - 128
    ensures ExitCodeOf(sig + 128) == sig - 128
  {
  }

  // ------------------------------------------------------ polling

  /** The two fields workspace_is_running reads and updates. */
  datatype HandleState = HandleState(isRunning: bool, exitCode: int)

  /** A handle as the launchers hand it out keeps exitCode at -1 while it
      runs. */
  predicate Consistent(st: HandleState) { st.isRunning ==> st.exitCode == -1 }

  /** What the bridge returns: the running flag, the value stored through
      exit_code, and the handle's new state. */
  datatype Poll = Poll(running: int, exitCode: int, next: HandleState)

  /** waitpid(pid, &status, WNOHANG): 0 while the child runs, the pid with a
      status once it has ended, -1 on error (such as a child already reaped). */
  datatype WaitResult = StillRunning | Reaped(status: nat) | WaitFailed

  /** workspace_is_running (POSIX) on a non-null handle. */
  function PollPosix(st: HandleState, w: WaitResult): (p: Poll)
    ensures p.running == 1 || p.running == 0
    ensures p.exitCode == p.next.exitCode
    ensures p.running == 1 <==> st.isRunning && w.StillRunning?
    ensures p.running == 1 ==> p.next == st
    ensures p.running == 0 ==> !p.next.isRunning
    ensures !st.isRunning ==> p.next == st
    ensures st.isRunning && w.Reaped? ==> p.next.exitCode == ExitCodeOf(w.status)
    ensures st.isRunning && w.WaitFailed? ==> p.next.exitCode == (if st.exitCode == -1 then 0 else st.exitCode)
  {
    if !st.isRunning then Poll(0, st.exitCode, st)
    else match w
      case StillRunning => Poll(1, st.exitCode, st)
      case Reaped(status) => Poll(0, ExitCodeOf(status), HandleState(false, ExitCodeOf(status)))
      case WaitFailed =>
        var code := if st.exitCode == -1 then 0 else st.exitCode;
        Poll(0, code, HandleState(false, code))
  }

  /** Once a poll reports the process finished, every later poll reports the
      same exit code and changes nothing, whatever waitpid would say. */
  lemma {:induction false} PollPosixIsFinal(st: HandleState, w1: WaitResult, ws: seq<WaitResult>)
    requires PollPosix(st, w1).running == 0
    ensures PollsPosix(PollPosix(st, w1).next, ws) == PollPosix(st, w1).next
    decreases |ws|
  {
    if ws != [] {
      PollPosixIsFinal(st, w1, ws[1..]);
    }
  }

  /** The state after a sequence of polls. */
  function PollsPosix(st: HandleState, ws: seq<WaitResult>): HandleState
    decreases |ws|
  {
    if ws == [] then st else PollsPosix(PollPosix(st, ws[0]).next, ws[1..])
  }

  /** Polling keeps the launchers' invariant; on a handle that keeps it, a
      failed waitpid while running always yields exit code 0, and a signal
      death is never mistaken for the error value -1. */
  lemma PollPosixKeepsConsistent(st: HandleState, w: WaitResult)
    requires Consistent(st)
    ensures Consistent(PollPosix(st, w).next)
    ensures st.isRunning && w.WaitFailed? ==> PollPosix(st, w) == Poll(0, 0, HandleState(false, 0))
    ensures st.isRunning && w.Reaped? && WIfSignaled(w.status) ==> PollPosix(st, w).exitCode != -1
  {
  }

  /** workspace_is_running (POSIX): a null handle reports 0 and -1; otherwise
      one non-blocking waitpid, which reaps the child once it has ended, and
      the handle is updated as PollPosix says. */
  method IsRunning(host: PosixHost, handle: PosixProcessHandle?, w: WaitResult)
    returns (running: int, exitCode: int)
    requires host.Valid()
    modifies host, handle
    ensures host.Valid()
    ensures handle == null ==> running == 0 && exitCode == -1 && unchanged(host)
    ensures handle != null ==>
      var p := PollPosix(HandleState(old(handle.isRunning), old(handle.exitCode)), w);
      && running == p.running && exitCode == p.exitCode
      && handle.isRunning == p.next.isRunning && handle.exitCode == p.next.exitCode
      && handle.pid == old(handle.pid) && handle.fdOut == old(handle.fdOut) && handle.fdErr == old(handle.fdErr)
      && host.children == (if old(handle.isRunning) && w.Reaped? then old(host.children) - {handle.pid}
                           else old(host.children))
      && host.openFds == old(host.openFds)
  {
    if handle == null {
      return 0, -1;
    }
    if !handle.isRunning {
      return 0, handle.exitCode;
    }
    match w {
      case StillRunning =>
        return 1, handle.exitCode;
      case Reaped(status) =>
        host.Reap(handle.pid);
        handle.isRunning := false;
        if status % 128 == 0 {
          handle.exitCode := (status / 256) % 256;
        } else if status % 128 != 127 {
          handle.exitCode := -128 + status % 128;
        } else {
          handle.exitCode := -1;
        }
      case WaitFailed =>
        handle.isRunning := false;
        if handle.exitCode == -1 {
          handle.exitCode := 0;
        }
    }
    return 0, handle.exitCode;
  }

  /** GetExitCodeProcess's pseudo exit code for a process still running. */
  const STILL_ACTIVE: int := 259

  /** static_cast<int> of a DWORD: two's-complement wrap-around into 32 bits. */
  function Int32OfDword(code: nat): (r: int)
    requires code < 0x1_0000_0000
    ensures -0x8000_0000 <= r < 0x8000_0000
    ensures (r - code) % 0x1_0000_0000 == 0
    ensures code < 0x8000_0000 ==> r == code
  {
    if code < 0x8000_0000 then code else code - 0x1_0000_0000
  }

  /** What GetExitCodeProcess reports: failure, or a DWORD code. */
  datatype ExitQuery = QueryFailed | QueryOk(code: nat)

  /** workspace_is_running (Windows) on a non-null handle. */
  function PollWin(st: HandleState, q: ExitQuery): (p: Poll)
    requires q.QueryOk? ==> q.code < 0x1_0000_0000
    ensures p.running == 1 || p.running == 0
    ensures p.exitCode == p.next.exitCode
    ensures p.running == 1 <==> st.isRunning && q == QueryOk(STILL_ACTIVE)
    ensures p.running == 1 ==> p.next == st
    ensures p.running == 0 ==> !p.next.isRunning
    ensures !st.isRunning ==> p.next == st
    ensures st.isRunning && q.QueryOk? && q.code != STILL_ACTIVE ==> p.next.exitCode == Int32OfDword(q.code)
    ensures st.isRunning && q.QueryFailed? ==> p.next.exitCode == -1
  {
    if !st.isRunning then Poll(0, st.exitCode, st)
    else match q
      case QueryOk(code) =>
        if code == STILL_ACTIVE then Poll(1, st.exitCode, st)
        else Poll(0, Int32OfDword(code), HandleState(false, Int32OfDword(code)))
      case QueryFailed => Poll(0, -1, HandleState(false, -1))
  }

  /** A process that really exits with code 259 is indistinguishable from a
      running one and is reported as running on every poll; a process that
      exits with 0xFFFFFFFF is reported with exit code -1, like a failed query. */
  lemma PollWinAmbiguities(st: HandleState)
    requires st.isRunning
    ensures PollWin(st, QueryOk(259)).running == 1 && PollWin(st, QueryOk(259)).next == st
    ensures PollWin(st, QueryOk(0xFFFF_FFFF)).exitCode == PollWin(st, QueryFailed).exitCode == -1
  {
  }

  /** workspace_is_running (Windows). */
  method IsRunningWin(handle: WindowsProcessHandle?, q: ExitQuery) returns (running: int, exitCode: int)
    requires q.QueryOk? ==> q.code < 0x1_0000_0000
    modifies handle
    ensures handle == null ==> running == 0 && exitCode == -1
    ensures handle != null ==>
      var p := PollWin(HandleState(old(handle.isRunning), old(handle.exitCode)), q);
      && running == p.running && exitCode == p.exitCode
      && handle.isRunning == p.next.isRunning && handle.exitCode == p.next.exitCode
      && handle.hProcess == old(handle.hProcess) && handle.hThread == old(handle.hThread)
      && handle.hOutRead == old(handle.hOutRead) && handle.hErrRead == old(handle.hErrRead)
  {
    if handle == null {
      return 0, -1;
    }
    if !handle.isRunning {
      return 0, handle.exitCode;
    }
    match q {
      case QueryOk(code) =>
        if code == STILL_ACTIVE {
          return 1, handle.exitCode;
        }
        handle.isRunning := false;
        handle.exitCode := if code < 0x8000_0000 then code else code - 0x1_0000_0000;
      case QueryFailed =>
        handle.isRunning := false;
        handle.exitCode := -1;
    }
    return 0, handle.exitCode;
  }

  // ------------------------------------------------------ kill and free

  const SIGTERM: int := 15

  /** workspace_kill (POSIX): SIGTERM to the child while the handle still
      believes it runs; nothing once a poll has seen it end, so a reaped pid
      that the system may have reused is never signalled. */
  method Kill(host: PosixHost, handle: PosixProcessHandle?)
    requires host.Valid()
    modifies host
    ensures host.Valid()
    ensures host.signals == old(host.signals) +
      (if handle != null && handle.isRunning then [(handle.pid, SIGTERM)] else [])
    ensures host.openFds == old(host.openFds) && host.children == old(host.children)
  {
    if handle != null && handle.isRunning {
      host.Kill(handle.pid, SIGTERM);
    }
  }

  /** workspace_kill (Windows): TerminateProcess (exit code 1) while running
      and the process handle is non-null. */
  method KillWin(host: WinHost, handle: WindowsProcessHandle?)
    requires host.Valid()
    modifies host
    ensures host.Valid()
    ensures host.terminated == old(host.terminated) +
      (if handle != null && handle.isRunning && handle.hProcess != ProcessWin.NULL then [handle.hProcess] else [])
    ensures host.openHandles == old(host.openHandles) && host.processes == old(host.processes)
  {
    if handle != null && handle.isRunning && handle.hProcess != ProcessWin.NULL {
      host.Terminate(handle.hProcess);
    }
  }

  /** workspace_free_handle (POSIX): closes the two non-negative read ends.
      It neither kills nor reaps the child. */
  method FreeHandle(host: PosixHost, handle: PosixProcessHandle?)
    requires host.Valid()
    modifies host
    ensures host.Valid()
    ensures handle == null ==> host.openFds == old(host.openFds)
    ensures handle != null ==>
      host.openFds == old(host.openFds) - (if handle.fdOut >= 0 then {handle.fdOut} else {})
                                        - (if handle.fdErr >= 0 then {handle.fdErr} else {})
    ensures host.children == old(host.children) && host.signals == old(host.signals)
  {
    if handle == null {
      return;
    }
    if handle.fdOut >= 0 {
      host.Close(handle.fdOut);
    }
    if handle.fdErr >= 0 {
      host.Close(handle.fdErr);
    }
  }

  /** workspace_free_handle (Windows): closes each of the four handles that
      is non-NULL. */
  method FreeHandleWin(host: WinHost, handle: WindowsProcessHandle?)
    requires host.Valid()
    modifies host
    ensures host.Valid()
    ensures handle == null ==> host.openHandles == old(host.openHandles)
    ensures handle != null ==>
      host.openHandles == old(host.openHandles)
                          - ({handle.hProcess, handle.hThread, handle.hOutRead, handle.hErrRead} - {ProcessWin.NULL})
    ensures host.liveSids == old(host.liveSids) && host.processes == old(host.processes)
  {
    if handle == null {
      return;
    }
    if handle.hProcess != ProcessWin.NULL { host.CloseHandle(handle.hProcess); }
    if handle.hThread != ProcessWin.NULL { host.CloseHandle(handle.hThread); }
    if handle.hOutRead != ProcessWin.NULL { host.CloseHandle(handle.hOutRead); }
    if handle.hErrRead != ProcessWin.NULL { host.CloseHandle(handle.hErrRead); }
    assert ProcessWin.NULL !in old(host.openHandles);
  }

  /** A whole session on POSIX: start, then free. No descriptor outlives it;
      a started child stays behind, unreaped, until someone waits for it. */
  method StartThenFree(host: PosixHost, options: WorkspaceOptions, os: ProcessLinux.PosixLaunchOutcome)
    requires host.Valid() && options.commandLine.Some?
    modifies host
    ensures host.Valid()
    ensures host.openFds == old(host.openFds)
    ensures old(host.children).Keys <= host.children.Keys
  {
    var handle := WorkspaceStart(host, Some(options), os);
    if handle != null {
      FreeHandle(host, handle);
    }
  }

  /** A whole session on Windows: start, then free. No handle and no SID
      outlives it. */
  method StartThenFreeWin(host: WinHost, options: WorkspaceOptions, os: ProcessWin.WinLaunchOutcome)
    requires host.Valid() && options.commandLine.Some?
    modifies host
    ensures host.Valid()
    ensures host.openHandles == old(host.openHandles)
    ensures host.liveSids == old(host.liveSids)
  {
    var handle := WorkspaceStartWin(host, Some(options), os);
    if handle != null {
      FreeHandleWin(host, handle);
    }
  }
}

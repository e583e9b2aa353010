/** The in-process Windows launcher (native/src/windows/process_win.cpp):
    the non-blocking pipe read, the RAII handle wrapper, AppContainer set-up
    and StartProcessWindows with its handle and SID accounting. Handles are
    integers: 0 is NULL, -1 is INVALID_HANDLE_VALUE. */
module ProcessWin {
  import opened Wrappers
  import opened InternalApi
  import opened OsModel

  const NULL: int := 0
  const INVALID_HANDLE_VALUE: int := -1

  /** Win32 error codes ReadPipeWin treats as end of stream. */
  const ERROR_BROKEN_PIPE: int := 109
  const ERROR_NO_DATA: int := 232

  /** What PeekNamedPipe reports: failure with GetLastError(), or the number
      of bytes waiting. */
  datatype PeekResult = PeekFailed(error: int) | PeekOk(avail: nat)

  /** What ReadFile does when called: failure with GetLastError(), or success
      with this many bytes pending in the pipe (it transfers at most the
      buffer size of them). */
  datatype ReadFileResult = ReadFailed(error: int) | ReadOk(pending: nat)

  /** ReadPipeWin: -1 for a bad argument or an unexpected error, 0 for end of
      stream or nothing waiting, otherwise the number of bytes read. */
  function ReadPipeWin(h: int, bufIsNull: bool, sz: int, peek: PeekResult, read: ReadFileResult): (n: int)
    ensures n == -1 <==>
      || h == NULL || bufIsNull || sz <= 0
      || (peek.PeekFailed? && peek.error != ERROR_BROKEN_PIPE)
      || (peek.PeekOk? && peek.avail != 0 && read.ReadFailed?
          && read.error != ERROR_BROKEN_PIPE && read.error != ERROR_NO_DATA)
    ensures n > 0 ==> n <= sz && peek.PeekOk? && peek.avail > 0 && read.ReadOk? && n <= read.pending
    ensures n >= -1
  {
    if h == NULL || bufIsNull || sz <= 0 then -1
    else match peek
      case PeekFailed(err) => if err == ERROR_BROKEN_PIPE then 0 else -1
      case PeekOk(avail) =>
        if avail == 0 then 0
        else match read
          case ReadFailed(err) => if err == ERROR_BROKEN_PIPE || err == ERROR_NO_DATA then 0 else -1
          case ReadOk(pending) => if pending < sz then pending else sz
  }

  /** A closed pipe is end of stream, never an error, whether the peek or the
      read notices it; and data waiting in a pipe is delivered in full when it
      fits the buffer. */
  lemma ReadPipeWinOutcomes(h: int, sz: int, peek: PeekResult, read: ReadFileResult)
    requires h != NULL && sz > 0
    ensures peek == PeekFailed(ERROR_BROKEN_PIPE) ==> ReadPipeWin(h, false, sz, peek, read) == 0
    ensures peek.PeekOk? && peek.avail > 0 && read.ReadFailed? && read.error in {ERROR_BROKEN_PIPE, ERROR_NO_DATA}
            ==> ReadPipeWin(h, false, sz, peek, read) == 0
    ensures peek.PeekOk? && peek.avail > 0 && read.ReadOk? && 0 < read.pending <= sz
            ==> ReadPipeWin(h, false, sz, peek, read) == read.pending
  {
  }

  /** A handle value that names an open object. */
  predicate IsLive(h: int) { h != NULL && h != INVALID_HANDLE_VALUE }

  /** ScopedHandle: owns one handle and closes it when it goes out of scope,
      unless it was detached first. */
  class ScopedHandle {
    var h: int

    constructor (handle: int)
      ensures h == handle
    {
      h := handle;
    }

    /** close(): a live handle is closed and the wrapper becomes NULL; NULL and
        INVALID_HANDLE_VALUE are left as they are. */
    method Close(host: WinHost)
      requires host.Valid()
      modifies this, host
      ensures host.Valid()
      ensures IsLive(old(h)) ==> h == NULL && host.openHandles == old(host.openHandles) - {old(h)}
                                 && host.closeLog == old(host.closeLog) + [old(h)]
      ensures !IsLive(old(h)) ==> h == old(h) && host.openHandles == old(host.openHandles)
                                  && host.closeLog == old(host.closeLog)
      ensures host.liveSids == old(host.liveSids) && host.processes == old(host.processes)
      ensures host.profileRequests == old(host.profileRequests) && host.nextHandle == old(host.nextHandle)
    {
      if h != NULL && h != INVALID_HANDLE_VALUE {
        host.CloseHandle(h);
        h := NULL;
      }
    }

    /** detach(): hands the handle to the caller, who now owns it. */
    method Detach() returns (t: int)
      modifies this
      ensures t == old(h) && h == NULL
    {
      t := h;
      h := NULL;
    }
  }

  /** A detached handle survives the wrapper's destruction; an attached live
      one does not. */
  method DetachThenDestroy(host: WinHost, s: ScopedHandle) returns (owned: int)
    requires host.Valid() && IsLive(s.h) && s.h in host.openHandles
    modifies host, s
    ensures owned == old(s.h) && owned in host.openHandles
    ensures host.openHandles == old(host.openHandles)
  {
    owned := s.Detach();
    s.Close(host);
  }

  /** HRESULT values as their unsigned 32-bit patterns. */
  const S_OK: int := 0
  const ERROR_ALREADY_EXISTS: int := 183

  /** HRESULT_FROM_WIN32 for a Win32 error code: severity bit set,
      facility FACILITY_WIN32 (7), the code in the low 16 bits. */
  function HResultFromWin32(code: int): (hr: int)
    requires 0 < code < 0x1_0000
    ensures hr / 0x1_0000 == 0x8007 && hr % 0x1_0000 == code
  {
    0x8007_0000 + code
  }

  /** The constant line 16 names "container already exists". */
  const ALREADY_EXISTS_AS_WRITTEN: int := 0x8007_05AA

  /** Line 121 as written: the profile call is accepted on S_OK or on the
      constant of line 16. */
  function ProfileResultAcceptedAsWritten(hr: int): (accepted: bool)
    ensures accepted <==> hr in {S_OK, ALREADY_EXISTS_AS_WRITTEN}
  {
    hr == S_OK || hr == ALREADY_EXISTS_AS_WRITTEN
  }

  /** The constant of line 16 is HRESULT_FROM_WIN32(1450), the code for
      ERROR_NO_SYSTEM_RESOURCES, so the check rejects the result
      CreateAppContainerProfile gives for a profile that already exists (and
      accepts an out-of-resources failure instead). */
  lemma AsWrittenRejectsAlreadyExists()
    ensures ALREADY_EXISTS_AS_WRITTEN == HResultFromWin32(1450)
    ensures !ProfileResultAcceptedAsWritten(HResultFromWin32(ERROR_ALREADY_EXISTS))
    ensures ProfileResultAcceptedAsWritten(HResultFromWin32(1450))
  {
  }

  /** The intended check: a fresh profile or one that already exists. */
  function ProfileResultAccepted(hr: int): (accepted: bool)
    ensures accepted <==> hr == S_OK || hr == HResultFromWin32(ERROR_ALREADY_EXISTS)
  {
    hr == S_OK || hr == 0x8007_00B7
  }

  /** The corrected guard accepts exactly a fresh profile and one that
      already exists, and rejects the out-of-resources code the written guard
      lets through. */
  lemma ProfileReuseAccepted(hr: int)
    ensures ProfileResultAccepted(HResultFromWin32(ERROR_ALREADY_EXISTS))
    ensures hr != S_OK && hr != HResultFromWin32(ERROR_ALREADY_EXISTS) ==> !ProfileResultAccepted(hr)
    ensures ProfileResultAccepted(hr) ==> hr != ALREADY_EXISTS_AS_WRITTEN
  {
  }

  /** The results of the calls CreateAppContainer makes, in order: the
      profile HRESULT, OpenProcessToken, whether
      DeriveAppContainerTokenFromToken could be looked up in userenv.dll,
      and its HRESULT. */
  datatype ContainerOutcome = ContainerOutcome(
    profileHr: int, openTokenOk: bool, deriveAvailable: bool, deriveHr: int)

  /** The profile name for a workspace id. */
  function ProfileName(id: string): (name: string)
    ensures |name| == |id| + 10 && name[..|id|] == id && name[|id|..] == "_workspace"
  {
    id + "_workspace"
  }

  /** CreateAppContainer succeeds exactly when both strings are given and
      every step succeeds, the profile call by the guard of line 121 as
      written. DeriveAppContainerTokenFromToken is an outcome of its own: when
      the profile call did not return S_OK it is handed the NULL SID the
      profile call left behind. */
  predicate ContainerSucceeds(id: Option<string>, rootPath: Option<string>, c: ContainerOutcome) {
    && id.Some? && rootPath.Some?
    && ProfileResultAcceptedAsWritten(c.profileHr) && c.openTokenOk && c.deriveAvailable && c.deriveHr == S_OK
  }

  /** CreateAppContainer: requests the profile "<id>_workspace", derives a
      restricted token into hToken. Returns true iff every step succeeded; the
      process token it opens is always closed again; a SID comes back (for the
      caller to free) whenever the profile was created, even if a later step
      failed. */
  method CreateAppContainer(host: WinHost, id: Option<string>, rootPath: Option<string>,
                            hToken: ScopedHandle, os: ContainerOutcome)
    returns (ok: bool, sid: int)
    requires host.Valid()
    modifies host, hToken
    ensures host.Valid()
    ensures ok <==> ContainerSucceeds(id, rootPath, os)
    ensures ok ==> IsLive(hToken.h) && hToken.h !in old(host.openHandles)
                   && host.openHandles == old(host.openHandles) + {hToken.h}
    ensures !ok ==> hToken.h == old(hToken.h) && host.openHandles == old(host.openHandles)
    ensures sid != NULL <==> id.Some? && rootPath.Some? && os.profileHr == S_OK
    ensures sid != NULL ==> sid !in old(host.liveSids) && host.liveSids == old(host.liveSids) + {sid}
    ensures sid == NULL ==> host.liveSids == old(host.liveSids)
    ensures host.profileRequests ==
      old(host.profileRequests) + (if id.Some? && rootPath.Some? then [ProfileName(id.value)] else [])
    ensures host.processes == old(host.processes)
  {
    sid := NULL;
    if id.None? || rootPath.None? {
      return false, sid;
    }
    host.RequestProfile(id.value + "_workspace");
    if os.profileHr == S_OK {
      sid := host.NewSid();
    }
    if !ProfileResultAcceptedAsWritten(os.profileHr) {
      return false, sid;
    }
    if !os.openTokenOk {
      return false, sid;
    }
    var t := host.NewHandle();
    var hProcessToken := new ScopedHandle(t);
    if !os.deriveAvailable {
      hProcessToken.Close(host);
      return false, sid;
    }
    if os.deriveHr == S_OK {
      hToken.h := host.NewHandle();
    }
    hProcessToken.Close(host);
    ok := os.deriveHr == S_OK;
  }

  /** The results of the calls StartProcessWindows makes: the two
      CreatePipe calls, the AppContainer steps, and the process creation. */
  datatype WinLaunchOutcome = WinLaunchOutcome(
    pipeOut: bool, pipeErr: bool, container: ContainerOutcome, createOk: bool)

  /** The launch runs under the restricted AppContainer token exactly when a
      sandbox is asked for and the container is set up (the root path is the
      working directory, or "." without one). */
  predicate RunsRestricted(cwd: Option<string>, sandbox: bool, id: Option<string>, c: ContainerOutcome) {
    sandbox && ContainerSucceeds(id, Some(cwd.GetOr(".")), c)
  }

  /** The consequence of the guard as written: a workspace whose profile an
      earlier run created never runs restricted, whatever the later steps
      report; the launch falls back to the unrestricted process of lines
      211-212. */
  lemma ExistingProfileRunsUnrestricted(commandLine: Option<string>, cwd: Option<string>,
                                        id: Option<string>, c: ContainerOutcome)
    requires c.profileHr == HResultFromWin32(ERROR_ALREADY_EXISTS)
    ensures !RunsRestricted(cwd, true, id, c)
    ensures !LaunchOf(commandLine, cwd, RunsRestricted(cwd, true, id, c)).restrictedToken
  {
    AsWrittenRejectsAlreadyExists();
  }

  /** The other half: an out-of-resources failure of the profile call passes
      the guard, so the launch is restricted as soon as the token calls
      succeed, although no SID was obtained. */
  lemma OutOfResourcesPassesGuard(cwd: Option<string>, id: Option<string>, c: ContainerOutcome)
    requires c.profileHr == HResultFromWin32(1450) && id.Some?
    requires c.openTokenOk && c.deriveAvailable && c.deriveHr == S_OK
    ensures RunsRestricted(cwd, true, id, c)
  {
  }

  /** What the process is created from: the command line ("" for none) and
      the working directory, passed only when non-empty. */
  function LaunchOf(commandLine: Option<string>, cwd: Option<string>, restricted: bool): WinLaunch {
    var dir := cwd.GetOr("");
    WinLaunch(commandLine.GetOr(""), if dir == [] then None else Some(dir), restricted)
  }

  /** CreatePipe into two fresh wrappers: on success both ends are new live
      handles, on failure both wrappers stay NULL. */
  method CreatePipe(host: WinHost, ok: bool) returns (readEnd: ScopedHandle, writeEnd: ScopedHandle)
    requires host.Valid()
    modifies host
    ensures host.Valid()
    ensures fresh(readEnd) && fresh(writeEnd)
    ensures !ok ==> readEnd.h == NULL && writeEnd.h == NULL && host.openHandles == old(host.openHandles)
    ensures ok ==>
      && IsLive(readEnd.h) && IsLive(writeEnd.h) && readEnd.h != writeEnd.h
      && readEnd.h !in old(host.openHandles) && writeEnd.h !in old(host.openHandles)
      && host.openHandles == old(host.openHandles) + {readEnd.h, writeEnd.h}
    ensures host.liveSids == old(host.liveSids) && host.processes == old(host.processes)
    ensures host.profileRequests == old(host.profileRequests)
  {
    readEnd := new ScopedHandle(NULL);
    writeEnd := new ScopedHandle(NULL);
    if ok {
      var r := host.NewHandle();
      var w := host.NewHandle();
      readEnd.h, writeEnd.h := r, w;
    }
  }

  /** Lines 199-200: the two pipes; when the second fails, the first pipe's
      ends are closed as their wrappers go out of scope. */
  method CreatePipes(host: WinHost, os: WinLaunchOutcome)
    returns (outRead: ScopedHandle, outWrite: ScopedHandle, errRead: ScopedHandle, errWrite: ScopedHandle, ok: bool)
    requires host.Valid()
    modifies host
    ensures host.Valid()
    ensures fresh(outRead) && fresh(outWrite) && fresh(errRead) && fresh(errWrite)
    ensures ok <==> os.pipeOut && os.pipeErr
    ensures !ok ==> host.openHandles == old(host.openHandles)
    ensures ok ==>
      && IsLive(outRead.h) && IsLive(outWrite.h) && IsLive(errRead.h) && IsLive(errWrite.h)
      && outRead.h != outWrite.h && outRead.h != errRead.h && outRead.h != errWrite.h
      && outWrite.h != errRead.h && outWrite.h != errWrite.h && errRead.h != errWrite.h
      && {outRead.h, outWrite.h, errRead.h, errWrite.h} !! old(host.openHandles)
      && host.openHandles == old(host.openHandles) + {outRead.h, outWrite.h, errRead.h, errWrite.h}
    ensures host.liveSids == old(host.liveSids) && host.processes == old(host.processes)
    ensures host.profileRequests == old(host.profileRequests)
  {
    outRead, outWrite := CreatePipe(host, os.pipeOut);
    if !os.pipeOut {
      errRead := new ScopedHandle(NULL);
      errWrite := new ScopedHandle(NULL);
      return outRead, outWrite, errRead, errWrite, false;
    }
    errRead, errWrite := CreatePipe(host, os.pipeErr);
    if !os.pipeErr {
      outWrite.Close(host);
      outRead.Close(host);
      return outRead, outWrite, errRead, errWrite, false;
    }
    ok := true;
  }

  /** Lines 210-218: try the AppContainer; when it fails, fall back to an
      unsandboxed launch and free any SID it produced. */
  method SetUpSandbox(host: WinHost, cwd: Option<string>, sandbox: bool, id: Option<string>,
                      hToken: ScopedHandle, c: ContainerOutcome)
    returns (useSandbox: bool, sid: int)
    requires host.Valid() && hToken.h == NULL
    modifies host, hToken
    ensures host.Valid()
    ensures useSandbox <==> RunsRestricted(cwd, sandbox, id, c)
    ensures useSandbox ==> IsLive(hToken.h) && hToken.h !in old(host.openHandles)
                           && host.openHandles == old(host.openHandles) + {hToken.h}
    ensures !useSandbox ==> hToken.h == NULL && host.openHandles == old(host.openHandles)
    ensures sid != NULL ==> useSandbox && sid !in old(host.liveSids) && host.liveSids == old(host.liveSids) + {sid}
    ensures sid == NULL ==> host.liveSids == old(host.liveSids)
    ensures host.processes == old(host.processes)
  {
    useSandbox := sandbox;
    sid := NULL;
    if sandbox {
      var ok;
      ok, sid := CreateAppContainer(host, id, Some(cwd.GetOr(".")), hToken, c);
      if !ok {
        useSandbox := false;
        if sid != NULL {
          host.FreeSid(sid);
          sid := NULL;
        }
      }
    }
  }

  /** CreateProcessW / CreateProcessAsUserW: on success a new process and
      its primary thread, each with a new handle; on failure both NULL. */
  method CreateProcess(host: WinHost, launch: WinLaunch, ok: bool) returns (hProcess: int, hThread: int)
    requires host.Valid()
    modifies host
    ensures host.Valid()
    ensures !ok ==> hProcess == NULL && hThread == NULL
                    && host.openHandles == old(host.openHandles) && host.processes == old(host.processes)
    ensures ok ==>
      && IsLive(hProcess) && IsLive(hThread) && hProcess != hThread
      && hProcess !in old(host.openHandles) && hThread !in old(host.openHandles)
      && host.openHandles == old(host.openHandles) + {hProcess, hThread}
      && host.processes == old(host.processes)[hProcess := launch]
    ensures host.liveSids == old(host.liveSids)
  {
    hProcess, hThread := NULL, NULL;
    if ok {
      hProcess := host.NewHandle();
      hThread := host.NewHandle();
      host.RecordProcess(hProcess, launch);
    }
  }

  /** The live members of a set of handle values. */
  function LiveHandles(hs: set<int>): (live: set<int>)
    ensures live <= hs && forall h :: h in hs && IsLive(h) ==> h in live
  {
    set h | h in hs && IsLive(h)
  }

  /** Lines 255-258 and the wrappers' destructors: after a failed process
      creation the SID is freed and the token and both read ends are closed. */
  method AbandonLaunch(host: WinHost, sid: int, hToken: ScopedHandle, errRead: ScopedHandle, outRead: ScopedHandle)
    requires host.Valid()
    modifies host, hToken, errRead, outRead
    ensures host.Valid()
    ensures host.liveSids == old(host.liveSids) - {sid}
    ensures host.openHandles == old(host.openHandles) - LiveHandles({old(hToken.h), old(errRead.h), old(outRead.h)})
    ensures host.processes == old(host.processes)
  {
    if sid != NULL {
      host.FreeSid(sid);
    }
    hToken.Close(host);
    errRead.Close(host);
    outRead.Close(host);
    assert NULL !in old(host.liveSids);
  }

  /** Lines 260-272 and the wrappers' destructors: the thread handle is
      closed, the read ends are detached for the caller, the SID is freed and
      the token closed. */
  method CompleteLaunch(host: WinHost, sid: int, hToken: ScopedHandle, outRead: ScopedHandle, errRead: ScopedHandle,
                        hThread: int)
    returns (hOut: int, hErr: int)
    requires host.Valid()
    requires hToken != outRead && hToken != errRead && outRead != errRead
    modifies host, hToken, outRead, errRead
    ensures host.Valid()
    ensures hOut == old(outRead.h) && hErr == old(errRead.h)
    ensures host.liveSids == old(host.liveSids) - {sid}
    ensures host.openHandles == old(host.openHandles) - {hThread} - LiveHandles({old(hToken.h)})
    ensures host.processes == old(host.processes)
  {
    host.CloseHandle(hThread);
    hOut := outRead.Detach();
    hErr := errRead.Detach();
    if sid != NULL {
      host.FreeSid(sid);
    }
    hToken.Close(host);
    assert NULL !in old(host.liveSids);
  }

  /** StartProcessWindows: returns null iff a pipe or the process creation
      fails; a failed sandbox set-up falls back to an unrestricted launch.
      Every path releases every SID; a failure leaves no new handle open, and
      success leaves exactly the process handle and the two pipe read ends,
      all owned by the returned handle (the thread handle is closed and its
      field stays NULL). The network flag is ignored. */
  method StartProcessWindows(host: WinHost, commandLine: Option<string>, cwd: Option<string>,
                             sandbox: bool, id: Option<string>, allowNetwork: bool,
                             os: WinLaunchOutcome)
    returns (handle: WindowsProcessHandle?)
    requires host.Valid()
    modifies host
    ensures host.Valid()
    ensures host.liveSids == old(host.liveSids)
    ensures handle == null <==> !os.pipeOut || !os.pipeErr || !os.createOk
    ensures handle == null ==> host.openHandles == old(host.openHandles) && host.processes == old(host.processes)
    ensures handle != null ==>
      && fresh(handle)
      && handle.isRunning && handle.exitCode == -1 && handle.hThread == NULL
      && IsLive(handle.hProcess) && IsLive(handle.hOutRead) && IsLive(handle.hErrRead)
      && handle.hProcess != handle.hOutRead && handle.hProcess != handle.hErrRead
      && handle.hOutRead != handle.hErrRead
      && {handle.hProcess, handle.hOutRead, handle.hErrRead} !! old(host.openHandles)
      && host.openHandles == old(host.openHandles) + {handle.hProcess, handle.hOutRead, handle.hErrRead}
      && host.processes == old(host.processes)[handle.hProcess :=
           LaunchOf(commandLine, cwd, RunsRestricted(cwd, sandbox, id, os.container))]
  {
    var outRead, outWrite, errRead, errWrite, piped := CreatePipes(host, os);
    if !piped {
      return null;
    }
    handle := LaunchWithPipes(host, commandLine, cwd, sandbox, id, os, outRead, outWrite, errRead, errWrite);
  }

  /** Lines 202-272, once both pipes exist: set up the sandbox, create the
      process, close the write ends, then either release everything or hand
      the process handle and the read ends over to a new ProcessHandle. */
  method LaunchWithPipes(host: WinHost, commandLine: Option<string>, cwd: Option<string>,
                         sandbox: bool, id: Option<string>, os: WinLaunchOutcome,
                         outRead: ScopedHandle, outWrite: ScopedHandle, errRead: ScopedHandle, errWrite: ScopedHandle)
    returns (handle: WindowsProcessHandle?)
    requires host.Valid()
    requires IsLive(outRead.h) && IsLive(outWrite.h) && IsLive(errRead.h) && IsLive(errWrite.h)
    requires {outRead.h, outWrite.h, errRead.h, errWrite.h} <= host.openHandles
    requires outWrite.h != outRead.h && outWrite.h != errRead.h && errWrite.h != outRead.h
    requires errWrite.h != errRead.h && outRead.h != errRead.h
    requires outRead != outWrite && outRead != errRead && outRead != errWrite
    requires outWrite != errRead && outWrite != errWrite && errRead != errWrite
    modifies host, outRead, outWrite, errRead, errWrite
    ensures host.Valid()
    ensures host.liveSids == old(host.liveSids)
    ensures handle == null <==> !os.createOk
    ensures handle == null ==>
      && host.openHandles == old(host.openHandles) - {old(outRead.h), old(outWrite.h), old(errRead.h), old(errWrite.h)}
      && host.processes == old(host.processes)
    ensures handle != null ==>
      && fresh(handle)
      && handle.isRunning && handle.exitCode == -1 && handle.hThread == NULL
      && handle.hOutRead == old(outRead.h) && handle.hErrRead == old(errRead.h)
      && IsLive(handle.hProcess) && handle.hProcess !in old(host.openHandles)
      && host.openHandles == old(host.openHandles) - {old(outWrite.h), old(errWrite.h)} + {handle.hProcess}
      && host.processes == old(host.processes)[handle.hProcess :=
           LaunchOf(commandLine, cwd, RunsRestricted(cwd, sandbox, id, os.container))]
  {
    ghost var handles0 := host.openHandles;
    var hToken := new ScopedHandle(NULL);
    var useSandbox, sid := SetUpSandbox(host, cwd, sandbox, id, hToken, os.container);
    ghost var token := if useSandbox then {hToken.h} else {};

    var restricted := useSandbox && hToken.h != NULL;
    var hProcess, hThread := CreateProcess(host, LaunchOf(commandLine, cwd, restricted), os.createOk);

    outWrite.Close(host);
    errWrite.Close(host);

    if !os.createOk {
      AbandonLaunch(host, sid, hToken, errRead, outRead);
      return null;
    }

    assert host.openHandles == handles0 + token + {hProcess, hThread} - {old(outWrite.h), old(errWrite.h)};
    var hOut, hErr := CompleteLaunch(host, sid, hToken, outRead, errRead, hThread);
    assert host.openHandles == handles0 - {old(outWrite.h), old(errWrite.h)} + {hProcess};

    // The fields are filled in after the wrappers are done with the host;
    // nothing in between reads them.
    handle := new WindowsProcessHandle();
    handle.hProcess, handle.hOutRead, handle.hErrRead := hProcess, hOut, hErr;
    handle.isRunning, handle.exitCode := true, -1;
  }
}

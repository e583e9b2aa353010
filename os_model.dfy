/** The operating-system state the native launchers act on. The launchers do
    not implement these primitives; they call them. Each primitive here takes
    its outcome (success or failure) as a parameter and records its effect on
    the only state the launchers' promises are about: which descriptors or
    handles are open, which children are unreaped, which security identifiers
    are allocated. */
module OsModel {
  import opened Wrappers

  /** The POSIX side: the descriptor table of the launching process, the
      children it has forked and not yet reaped (with the argument vector each
      was asked to execute) and the signals it has sent. */
  class PosixHost {
    var openFds: set<int>
    var nextFd: int
    var nonBlocking: set<int>
    var closeLog: seq<int>
    var children: map<int, seq<Option<string>>>
    var nextPid: int
    var signals: seq<(int, int)>

    ghost predicate Valid()
      reads this
    {
      && 0 <= nextFd
      && 0 < nextPid
      && (forall fd :: fd in openFds ==> 0 <= fd < nextFd)
      && (forall pid :: pid in children ==> 0 < pid < nextPid)
    }

    constructor ()
      ensures Valid() && openFds == {} && children == map[] && closeLog == [] && signals == []
    {
      openFds, nextFd, nonBlocking, closeLog := {}, 0, {}, [];
      children, nextPid, signals := map[], 1, [];
    }

    /** pipe(2): on success two descriptors that were not open before. */
    method Pipe(ok: bool) returns (fds: Option<(int, int)>)
      requires Valid()
      modifies this
      ensures Valid()
      ensures ok ==> && fds == Some((old(nextFd), old(nextFd) + 1))
                     && old(nextFd) !in old(openFds) && old(nextFd) + 1 !in old(openFds)
                     && openFds == old(openFds) + {old(nextFd), old(nextFd) + 1}
      ensures !ok ==> fds.None? && openFds == old(openFds)
      ensures nonBlocking == old(nonBlocking) && closeLog == old(closeLog)
      ensures children == old(children) && nextPid == old(nextPid) && signals == old(signals)
    {
      if ok {
        fds := Some((nextFd, nextFd + 1));
        openFds := openFds + {nextFd, nextFd + 1};
        nextFd := nextFd + 2;
      } else {
        fds := None;
      }
    }

    /** close(2). */
    method Close(fd: int)
      requires Valid()
      modifies this
      ensures Valid()
      ensures openFds == old(openFds) - {fd} && closeLog == old(closeLog) + [fd]
      ensures nextFd == old(nextFd) && nonBlocking == old(nonBlocking)
      ensures children == old(children) && nextPid == old(nextPid) && signals == old(signals)
    {
      openFds := openFds - {fd};
      closeLog := closeLog + [fd];
    }

    /** fcntl(fd, F_SETFL, flags | O_NONBLOCK). */
    method SetNonblocking(fd: int)
      requires Valid()
      modifies this
      ensures Valid()
      ensures nonBlocking == old(nonBlocking) + {fd}
      ensures openFds == old(openFds) && nextFd == old(nextFd) && closeLog == old(closeLog)
      ensures children == old(children) && nextPid == old(nextPid) && signals == old(signals)
    {
      nonBlocking := nonBlocking + {fd};
    }

    /** fork(2) followed in the child by execvp(argv): on success the new pid;
        on failure -1. */
    method Fork(ok: bool, argv: seq<Option<string>>) returns (pid: int)
      requires Valid()
      modifies this
      ensures Valid()
      ensures ok ==> pid == old(nextPid) && pid > 0 && pid !in old(children)
                     && children == old(children)[pid := argv]
      ensures !ok ==> pid == -1 && children == old(children)
      ensures openFds == old(openFds) && nextFd == old(nextFd)
      ensures nonBlocking == old(nonBlocking) && closeLog == old(closeLog) && signals == old(signals)
    {
      if ok {
        pid := nextPid;
        children := children[pid := argv];
        nextPid := nextPid + 1;
      } else {
        pid := -1;
      }
    }

    /** A waitpid(2) that collected the child's status: the child is reaped. */
    method Reap(pid: int)
      requires Valid()
      modifies this
      ensures Valid()
      ensures children == old(children) - {pid}
      ensures openFds == old(openFds) && nextFd == old(nextFd) && nonBlocking == old(nonBlocking)
      ensures closeLog == old(closeLog) && nextPid == old(nextPid) && signals == old(signals)
    {
      children := children - {pid};
    }

    /** kill(2). */
    method Kill(pid: int, sig: int)
      requires Valid()
      modifies this
      ensures Valid()
      ensures signals == old(signals) + [(pid, sig)]
      ensures openFds == old(openFds) && nextFd == old(nextFd) && nonBlocking == old(nonBlocking)
      ensures closeLog == old(closeLog) && children == old(children) && nextPid == old(nextPid)
    {
      signals := signals + [(pid, sig)];
    }
  }

  /** What CreateProcessW / CreateProcessAsUserW was asked to start. */
  datatype WinLaunch = WinLaunch(commandLine: string, currentDirectory: Option<string>, restrictedToken: bool)

  /** The Windows side: the kernel-object handles the launching process holds
      open (0 is NULL, -1 is INVALID_HANDLE_VALUE, live handles are positive),
      the security identifiers it has allocated and not freed, the processes it
      has created, the AppContainer profile names it has asked for, and the
      processes it has terminated. */
  class WinHost {
    var openHandles: set<int>
    var nextHandle: int
    var closeLog: seq<int>
    var liveSids: set<int>
    var nextSid: int
    var processes: map<int, WinLaunch>
    var profileRequests: seq<string>
    var terminated: seq<int>

    ghost predicate Valid()
      reads this
    {
      && 0 < nextHandle
      && 0 < nextSid
      && (forall h :: h in openHandles ==> 0 < h < nextHandle)
      && (forall s :: s in liveSids ==> 0 < s < nextSid)
    }

    constructor ()
      ensures Valid() && openHandles == {} && liveSids == {} && processes == map[]
      ensures closeLog == [] && profileRequests == [] && terminated == []
    {
      openHandles, nextHandle, closeLog := {}, 1, [];
      liveSids, nextSid := {}, 1;
      processes, profileRequests, terminated := map[], [], [];
    }

    /** Any call that hands back one new kernel-object handle. */
    method NewHandle() returns (h: int)
      requires Valid()
      modifies this
      ensures Valid()
      ensures h == old(nextHandle) && h > 0 && h !in old(openHandles)
      ensures openHandles == old(openHandles) + {h}
      ensures closeLog == old(closeLog) && liveSids == old(liveSids) && nextSid == old(nextSid)
      ensures processes == old(processes) && profileRequests == old(profileRequests)
      ensures terminated == old(terminated)
    {
      h := nextHandle;
      openHandles := openHandles + {h};
      nextHandle := nextHandle + 1;
    }

    /** CloseHandle. */
    method CloseHandle(h: int)
      requires Valid()
      modifies this
      ensures Valid()
      ensures openHandles == old(openHandles) - {h} && closeLog == old(closeLog) + [h]
      ensures nextHandle == old(nextHandle) && liveSids == old(liveSids) && nextSid == old(nextSid)
      ensures processes == old(processes) && profileRequests == old(profileRequests)
      ensures terminated == old(terminated)
    {
      openHandles := openHandles - {h};
      closeLog := closeLog + [h];
    }

    /** A call that allocates a security identifier for its caller to free. */
    method NewSid() returns (sid: int)
      requires Valid()
      modifies this
      ensures Valid()
      ensures sid == old(nextSid) && sid > 0 && sid !in old(liveSids)
      ensures liveSids == old(liveSids) + {sid}
      ensures openHandles == old(openHandles) && nextHandle == old(nextHandle)
      ensures closeLog == old(closeLog) && processes == old(processes)
      ensures profileRequests == old(profileRequests) && terminated == old(terminated)
    {
      sid := nextSid;
      liveSids := liveSids + {sid};
      nextSid := nextSid + 1;
    }

    /** FreeSid. */
    method FreeSid(sid: int)
      requires Valid()
      modifies this
      ensures Valid()
      ensures liveSids == old(liveSids) - {sid}
      ensures openHandles == old(openHandles) && nextHandle == old(nextHandle)
      ensures closeLog == old(closeLog) && nextSid == old(nextSid) && processes == old(processes)
      ensures profileRequests == old(profileRequests) && terminated == old(terminated)
    {
      liveSids := liveSids - {sid};
    }

    /** The profile name passed to CreateAppContainerProfile. */
    method RequestProfile(name: string)
      requires Valid()
      modifies this
      ensures Valid()
      ensures profileRequests == old(profileRequests) + [name]
      ensures openHandles == old(openHandles) && nextHandle == old(nextHandle)
      ensures closeLog == old(closeLog) && liveSids == old(liveSids) && nextSid == old(nextSid)
      ensures processes == old(processes) && terminated == old(terminated)
    {
      profileRequests := profileRequests + [name];
    }

    /** Records that the process behind h was created from launch. */
    method RecordProcess(h: int, launch: WinLaunch)
      requires Valid()
      modifies this
      ensures Valid()
      ensures processes == old(processes)[h := launch]
      ensures openHandles == old(openHandles) && nextHandle == old(nextHandle)
      ensures closeLog == old(closeLog) && liveSids == old(liveSids) && nextSid == old(nextSid)
      ensures profileRequests == old(profileRequests) && terminated == old(terminated)
    {
      processes := processes[h := launch];
    }

    /** TerminateProcess. */
    method Terminate(h: int)
      requires Valid()
      modifies this
      ensures Valid()
      ensures terminated == old(terminated) + [h]
      ensures openHandles == old(openHandles) && nextHandle == old(nextHandle)
      ensures closeLog == old(closeLog) && liveSids == old(liveSids) && nextSid == old(nextSid)
      ensures processes == old(processes) && profileRequests == old(profileRequests)
    {
      terminated := terminated + [h];
    }
  }
}

/** The per-platform layout of the opaque ProcessHandle the bridge hands out
    (native/src/common/internal_api.h). Both are allocated value-initialised,
    so every field starts at zero / false, and the launchers then fill them in. */
module InternalApi {

  /** The POSIX handle: child pid, the parent's read ends of the stdout and
      stderr pipes, the cached exit code and the liveness flag. */
  class PosixProcessHandle {
    var pid: int
    var fdOut: int
    var fdErr: int
    var exitCode: int
    var isRunning: bool

    constructor ()
      ensures pid == 0 && fdOut == 0 && fdErr == 0 && exitCode == 0 && !isRunning
    {
      pid, fdOut, fdErr, exitCode, isRunning := 0, 0, 0, 0, false;
    }
  }

  /** The Windows handle: process and thread handles, the read ends of the two
      pipes (0 is NULL), the cached exit code and the liveness flag. */
  class WindowsProcessHandle {
    var hProcess: int
    var hThread: int
    var hOutRead: int
    var hErrRead: int
    var exitCode: int
    var isRunning: bool

    constructor ()
      ensures hProcess == 0 && hThread == 0 && hOutRead == 0 && hErrRead == 0
      ensures exitCode == 0 && !isRunning
    {
      hProcess, hThread, hOutRead, hErrRead := 0, 0, 0, 0;
      exitCode, isRunning := 0, false;
    }
  }
}

# Native launcher of workspace_sandbox, modelled in Dafny

The native layer of workspace_sandbox starts a command, in a sandbox or not, and reports on it. Two paths lead there, and this project models both.

- **The C/C++ bridge.** `workspace_start`, `workspace_read_*`, `workspace_is_running`, `workspace_kill` and `workspace_free_handle` act on a `ProcessHandle`. On Linux/POSIX the handle is filled by `StartProcessLinux`. That function tokenizes a shell-like command line, prefixes a bubblewrap argument vector, forks, and learns whether `execvp` succeeded through a close-on-exec report pipe. On Windows it is filled by `StartProcessWindows`. That function optionally derives an AppContainer token and falls back to an unrestricted launch when it cannot.
- **The Rust launcher.** `main` turns the parsed options into an `ExecutionContext`. One isolation strategy (bubblewrap, Windows job, macOS Seatbelt, or plain host) then turns that context into a command: a program, ordered arguments, an environment, whether the inherited environment is cleared, and a working directory.

## Layout

| module | contents |
|---|---|
| `Wrappers` | `Option` and `Result` |
| `OsModel` | the operating system as state. `PosixHost` holds open descriptors, non-blocking descriptors, forked children and the signals sent. `WinHost` holds open handles, live SIDs, launched processes, profile requests and terminations. `pipe`, `fork` and `CreatePipe` are methods whose success or failure is an argument; `close`, `kill`, `CloseHandle`, `FreeSid` and `TerminateProcess` always succeed; `Reap` records a `waitpid` that collected a status, and what `waitpid` returns is an argument of the operation that calls it |
| `InternalApi` | the two platform layouts of `ProcessHandle` |
| `CommandLine` | `parse_command_line`: a loop method, proved equal to a step function over the lexer state, and lemmas about that function |
| `ProcessLinux` | `ArgBuilder`, the bubblewrap base vector, argv assembly, and descriptor accounting in `StartProcessLinux` |
| `ProcessWin` | `ReadPipeWin`, `ScopedHandle`, `CreateAppContainer`, and the fallback and cleanup paths of `StartProcessWindows` |
| `WorkspaceCore` | the C bridge on both platforms; the exit-status cache as a pure step function `PollPosix`/`PollWin` plus the methods that apply it to a handle |
| `StrategyBase` | `ExecutionContext`, the `Command` record, the host's environment and filesystem as maps (`HostView`), and the shared builder steps |
| `StrategyLinux`, `StrategyWindows`, `StrategyMacos`, `StrategyHost` | the four `build_command`s |
| `LauncherMain` | `parse_key_val`, the mapping from arguments to context, and the exit codes |

Everything the code learns from the outside world is a parameter. That covers the results of `pipe`, `fork`, `execvp`, `waitpid`, `read`, `PeekNamedPipe`, `ReadFile`, `GetExitCodeProcess`, `CreateAppContainerProfile` and the token calls. It also covers `which`, `fs::read_link`, `fs::canonicalize`, `Path::exists` and `env::var`, which become the `which`, `symlinks`, `canonical`, `existing` and `env` fields of `HostView`. The engine that runs the built command is a function parameter.

The C++ launcher and the Rust bubblewrap strategy disagree, and the model keeps both as written:
- The C++ launcher mounts an empty root, binds the working directory at `/app` and puts no `--` before the command.
- The Rust strategy binds the host root read-only, binds the workspace at its own path and ends its options with `--`.

## Model

| member | source | states |
|---|---|---|
| CommandLine.ParseCommandLine | native/src/linux/process_linux.cpp:96-136 | the character loop returns exactly the tokens of the lexer specification; a null or empty line gives none |
| CommandLine.RunAppend | native/src/linux/process_linux.cpp:106-133 | the loop over a concatenation is the loop over the second part started in the state the first part left |
| CommandLine.TokensAreNonEmpty | native/src/linux/process_linux.cpp:125-134 | no emitted token is ever empty |
| CommandLine.UnquotedBlankSeparates | native/src/linux/process_linux.cpp:125-131 | a space or tab outside quotes and escapes splits the line into two independently tokenized halves |
| CommandLine.EmptyQuotesYieldNoToken | native/src/linux/process_linux.cpp:117-134 | `a '' b` yields exactly `a` and `b` |
| CommandLine.EmptyQuotesAreNeutral | native/src/linux/process_linux.cpp:117-120 | an empty quoted pair leaves the lexer exactly as it found it |
| CommandLine.SingleQuotedIsLiteral | native/src/linux/process_linux.cpp:113-120 | a single-quoted text without a single quote is one token equal to that text, backslashes and double quotes included |
| CommandLine.DoubleQuotedIsLiteral | native/src/linux/process_linux.cpp:121-124 | a double-quoted text without quote or backslash is one token equal to that text, blanks and single quotes included |
| CommandLine.EscapedCharIsLiteral | native/src/linux/process_linux.cpp:108-116 | outside single quotes a backslash appends the next character literally, whatever it is |
| CommandLine.TrailingBackslashDropped | native/src/linux/process_linux.cpp:113-134 | a final lone backslash contributes nothing |
| CommandLine.StepHolds | native/src/linux/process_linux.cpp:108-133 | one pass of the loop puts a quote character into the text iff it is escaped or inside the other kind of quote, and never removes one already there |
| CommandLine.RunHolds | native/src/linux/process_linux.cpp:106-133 | after the loop, a quote character is in an emitted or pending token iff some occurrence of it in the line was escaped or inside the other kind of quote |
| CommandLine.FinishHolds | native/src/linux/process_linux.cpp:134 | emitting the pending token loses no character: a character is in the result iff it was in a token of the final state |
| CommandLine.SingleQuoteSurvives | native/src/linux/process_linux.cpp:108-124 | for every line, a single quote reaches a token iff one occurrence of it is escaped or inside double quotes |
| CommandLine.DoubleQuoteSurvives | native/src/linux/process_linux.cpp:108-124 | for every line, a double quote reaches a token iff one occurrence of it is escaped or inside single quotes |
| ProcessLinux.TerminatedIsPointerVector | native/src/linux/process_linux.cpp:22-30 | a vector of one pointer per string in order followed by a null is the terminated argv |
| ProcessLinux.BwrapBaseShape | native/src/linux/process_linux.cpp:42-86 | the base vector has 39 entries; it starts `bwrap --unshare-all`, mounts a tmpfs at `/` and ends `--cap-drop ALL`; it holds `--unshare-net` iff the network is denied and `--share-net` iff it is allowed |
| ProcessLinux.ArgBuilder.constructor | native/src/linux/process_linux.cpp:152 | a new builder holds no arguments |
| ProcessLinux.ArgBuilder.Add | native/src/linux/process_linux.cpp:18-20 | one argument appended at the end |
| ProcessLinux.ArgBuilder.GetArgs | native/src/linux/process_linux.cpp:22-30 | size()+1 pointers: the stored arguments in insertion order, then a null |
| ProcessLinux.ArgBuilder.AddAll | native/src/linux/process_linux.cpp:168-175 | the parsed tokens appended in order |
| ProcessLinux.ArgBuilder.AddBwrapBase | native/src/linux/process_linux.cpp:42-86 | appends exactly the bubblewrap base vector for the policy |
| ProcessLinux.AssembleArgv | native/src/linux/process_linux.cpp:152-177 | the exec vector is the null-terminated argv of the sandbox layout |
| ProcessLinux.ArgvFrame | native/src/linux/process_linux.cpp:152-175 | unsandboxed argv equals the tokens; sandboxed argv is the base vector, then `--bind cwd /app --chdir /app` exactly when cwd is non-empty, then the tokens |
| ProcessLinux.OpenPipes | native/src/linux/process_linux.cpp:180-192 | the three pipes exist iff all three calls succeed; on a failure every descriptor opened so far is closed again; on success six fresh distinct descriptors are open |
| ProcessLinux.CloseAllPipes | native/src/linux/process_linux.cpp:198-203 | after a failed fork all six descriptors are closed |
| ProcessLinux.ParentReadsReport | native/src/linux/process_linux.cpp:239-246 | the parent sees an error iff the child wrote one; the write ends and the report pipe are closed |
| ProcessLinux.StartProcessLinux | native/src/linux/process_linux.cpp:140-267 | no handle iff no tokens, a pipe or fork failure, or a reported chdir or exec error; without tokens nothing is touched; on failure the open descriptors and the children are as before; on success a running handle with exit code -1 holds two new non-blocking read ends, and the new child runs the assembled argv |
| ProcessLinux.ForkAndWait | native/src/linux/process_linux.cpp:197-265 | no handle iff the fork fails or the child reports an error, and then all six descriptors are closed and no child is left; otherwise only the two read ends stay open, non-blocking, in a running handle with exit code -1 whose new child runs the argv |
| ProcessWin.ReadPipeWin | native/src/windows/process_win.cpp:74-94 | -1 exactly for a bad argument, a peek error other than broken pipe, or a read error other than broken pipe or no data; a positive result never exceeds the buffer size or what was pending |
| ProcessWin.ReadPipeWinOutcomes | native/src/windows/process_win.cpp:79-93 | a broken pipe at peek time is end of stream; a broken-pipe or no-data read is 0; a successful read returns what was pending |
| ProcessWin.ScopedHandle.constructor | native/src/windows/process_win.cpp:23 | the wrapper owns the given handle |
| ProcessWin.ScopedHandle.Close | native/src/windows/process_win.cpp:26-31 | a live handle is closed once and cleared; NULL and INVALID_HANDLE_VALUE are never closed, so closing twice is harmless |
| ProcessWin.ScopedHandle.Detach | native/src/windows/process_win.cpp:33-37 | ownership is handed out: the old value is returned and the wrapper is left empty |
| ProcessWin.DetachThenDestroy | native/src/windows/process_win.cpp:24-37 | a detached handle survives the wrapper's destruction |
| ProcessWin.HResultFromWin32 | native/src/windows/process_win.cpp:16 | a Win32 error code in the low word of a FACILITY_WIN32 failure HRESULT |
| ProcessWin.ProfileResultAcceptedAsWritten | native/src/windows/process_win.cpp:121 | the guard as written accepts only S_OK and 0x800705AA |
| ProcessWin.AsWrittenRejectsAlreadyExists | native/src/windows/process_win.cpp:16 | 0x800705AA is the HRESULT of Win32 error 1450, and the guard as written rejects the HRESULT of ERROR_ALREADY_EXISTS |
| ProcessWin.ProfileResultAccepted | native/src/windows/process_win.cpp:121 | the corrected guard accepts exactly S_OK and the HRESULT of ERROR_ALREADY_EXISTS |
| ProcessWin.ProfileReuseAccepted | native/src/windows/process_win.cpp:121 | the corrected guard accepts exactly S_OK and HRESULT_FROM_WIN32(ERROR_ALREADY_EXISTS), and rejects 0x800705AA |
| ProcessWin.ProfileName | native/src/windows/process_win.cpp:108 | the profile name is the id followed by `_workspace` |
| ProcessWin.CreateAppContainer | native/src/windows/process_win.cpp:100-156 | success iff id and root are given, the profile call returns S_OK or 0x800705AA (the guard as written), and the token is opened and derived; a restricted token handle exists only on success; a SID exists iff the profile was newly created; exactly one profile request is made, and only when id and root are given |
| ProcessWin.CreatePipe | native/src/windows/process_win.cpp:199 | on success two fresh live handles are open; on failure nothing is |
| ProcessWin.CreatePipes | native/src/windows/process_win.cpp:199-200 | both pipes exist iff both calls succeed; on a failure the handles opened so far are closed |
| ProcessWin.ExistingProfileRunsUnrestricted | native/src/windows/process_win.cpp:210-218 | when the profile call reports HRESULT_FROM_WIN32(ERROR_ALREADY_EXISTS), the sandboxed launch falls back to an unrestricted process, whatever the later steps report |
| ProcessWin.OutOfResourcesPassesGuard | native/src/windows/process_win.cpp:121 | a profile call failing with 0x800705AA passes the guard, and the launch runs restricted once the token calls succeed |
| ProcessWin.SetUpSandbox | native/src/windows/process_win.cpp:210-218 | the restricted path is taken iff a sandbox was asked for and CreateAppContainer succeeded under the guard as written (with cwd or "." as root); otherwise no token is held; a SID is held only on the restricted path |
| ProcessWin.CreateProcess | native/src/windows/process_win.cpp:220-250 | on success new process and thread handles are open and the process is recorded with the command line and directory given |
| ProcessWin.AbandonLaunch | native/src/windows/process_win.cpp:252-258 | after a failed create the SID is freed and every handle still owned is closed |
| ProcessWin.CompleteLaunch | native/src/windows/process_win.cpp:260-272 | the read ends are handed to the caller; the thread handle, the token and the write ends are closed and the SID is freed |
| ProcessWin.StartProcessWindows | native/src/windows/process_win.cpp:169-273 | no handle iff a pipe or the create fails; no SID outlives the call; on failure the open handles and processes are as before; on success a running handle with exit code -1 holds three fresh live handles and no thread handle, and the process runs the command line restricted iff a sandbox was asked for and CreateAppContainer succeeded under the guard as written; the network flag has no effect |
| ProcessWin.LaunchWithPipes | native/src/windows/process_win.cpp:202-273 | the same, from the moment both pipes exist |
| InternalApi.PosixProcessHandle.constructor | native/src/common/internal_api.h:15-28 | a value-initialised POSIX handle: zero fields, not running |
| InternalApi.WindowsProcessHandle.constructor | native/src/common/internal_api.h:15-28 | a value-initialised Windows handle: NULL handles, not running |
| WorkspaceCore.WorkspaceStart | native/src/workspace_core.cpp:20-42 | null options or a null command line give no handle and change nothing; otherwise the POSIX launcher runs with the integer flags read as `!= 0` |
| WorkspaceCore.WorkspaceStartWin | native/src/workspace_core.cpp:20-33 | the same guard, then the Windows launcher |
| WorkspaceCore.ClassifyRead | native/src/workspace_core.cpp:55-59 | positive exactly for a positive byte count, which is returned; -1 exactly for EAGAIN, EWOULDBLOCK or EINTR; 0 otherwise |
| WorkspaceCore.EndOfFileAndErrorLookAlike | native/src/workspace_core.cpp:57-59 | end of file and a hard error both read as 0 |
| WorkspaceCore.ReadStdout | native/src/workspace_core.cpp:54-59 | 0 for a null handle, otherwise the classified read of the stdout descriptor |
| WorkspaceCore.ReadStderr | native/src/workspace_core.cpp:73-78 | 0 for a null handle, otherwise the classified read of the stderr descriptor |
| WorkspaceCore.StreamsAreIndependent | native/src/workspace_core.cpp:44-80 | reading stdout depends only on the stdout descriptor's outcome |
| WorkspaceCore.ReadStdoutWin | native/src/workspace_core.cpp:50-52 | 0 for a null handle or pipe, otherwise ReadPipeWin on the stdout pipe |
| WorkspaceCore.ReadStderrWin | native/src/workspace_core.cpp:69-71 | 0 for a null handle or pipe, otherwise ReadPipeWin on the stderr pipe |
| WorkspaceCore.NullPipeIsNoData | native/src/workspace_core.cpp:50-52 | the bridge reports a missing pipe as "no data", where ReadPipeWin would report -1 |
| WorkspaceCore.ExitCodeOf | native/src/workspace_core.cpp:129-136 | a normal exit caches its status 0..255; death by signal caches -128 + signal, in -127..-2; anything else caches -1 |
| WorkspaceCore.ExitCodeDecodes | native/src/workspace_core.cpp:129-136 | the three cases can be told apart from the cached code alone |
| WorkspaceCore.ExitCodeRoundTrip | native/src/workspace_core.cpp:130-133 | exit status e reads back as e; signal s, with or without a core dump, reads back as s - 128 |
| WorkspaceCore.PollPosix | native/src/workspace_core.cpp:114-145 | 1 iff the handle was running and waitpid reports no change, in which case the handle is untouched; otherwise the handle ends not running with the code it reports; a reaped child caches its decoded status; a failed wait turns an unset -1 into 0 |
| WorkspaceCore.PollPosixIsFinal | native/src/workspace_core.cpp:114-117 | once a poll has reported 0, no later poll changes the handle |
| WorkspaceCore.PollPosixKeepsConsistent | native/src/workspace_core.cpp:119-141 | a running handle always carries -1, and polling keeps that so; a failed wait on a running handle reports exit code 0 |
| WorkspaceCore.IsRunning | native/src/workspace_core.cpp:82-146 | a null handle reports 0 and -1; otherwise the handle's new state and the result follow PollPosix, and a reaped child leaves the child table |
| WorkspaceCore.Int32OfDword | native/src/workspace_core.cpp:104 | the two's-complement reading of a 32-bit exit code |
| WorkspaceCore.PollWin | native/src/workspace_core.cpp:92-112 | 1 iff running and STILL_ACTIVE; a read code is cached as a signed 32-bit value; a failed query caches -1; a finished handle is final |
| WorkspaceCore.PollWinAmbiguities | native/src/workspace_core.cpp:97-112 | a process that exits with 259 looks alive, and one that exits with 0xFFFFFFFF looks like a failed query |
| WorkspaceCore.IsRunningWin | native/src/workspace_core.cpp:82-112 | a null handle reports 0 and -1; otherwise the handle follows PollWin |
| WorkspaceCore.Kill | native/src/workspace_core.cpp:148-160 | SIGTERM goes to the child exactly when the handle is non-null and running; nothing else changes |
| WorkspaceCore.KillWin | native/src/workspace_core.cpp:148-154 | the process is terminated exactly when the handle is non-null, running and has a process handle |
| WorkspaceCore.FreeHandle | native/src/workspace_core.cpp:162-176 | exactly the descriptors that are >= 0 are closed |
| WorkspaceCore.FreeHandleWin | native/src/workspace_core.cpp:162-169 | exactly the non-NULL handles are closed |
| WorkspaceCore.StartThenFree | native/src/workspace_core.cpp:162-176 | starting and then freeing leaves the open descriptors as they were |
| WorkspaceCore.StartThenFreeWin | native/src/workspace_core.cpp:162-176 | starting and then freeing leaves the open handles and SIDs as they were |
| StrategyBase.ToLower | native/src/strategies/windows.rs:27 | lowercasing keeps the length and folds each letter |
| StrategyBase.ToLowerIdempotent | native/src/strategies/windows.rs:27 | lowercasing twice is lowercasing once |
| StrategyBase.Resolve | native/src/strategies/windows.rs:40-44 | `cmd` is never looked up; other names use the `which` result, falling back to the bare name |
| StrategyBase.CwdOrRoot | native/src/strategies/windows.rs:76-80 | the context's directory if given, else the workspace root |
| StrategyBase.Envs | native/src/strategies/windows.rs:67 | after applying variables in any map order, every given variable has its value and every other one is kept |
| StrategyBase.CopyVars | native/src/strategies/windows.rs:62-66 | exactly the listed variables that are set on the host are copied |
| StrategyBase.Whitelisted | native/src/strategies/linux.rs:124-128 | a variable is kept iff it is listed and set, with its host value |
| StrategyBase.Insert | native/src/strategies/windows.rs:35-36 | Vec::insert places the element and shifts the rest |
| StrategyBase.WrapWithCmd | native/src/strategies/windows.rs:35-37 | the program becomes `cmd` with `/c` and the original name in front of the arguments |
| StrategyLinux.ParentDir | native/src/strategies/linux.rs:57 | the parent of an absolute path is a proper prefix of it |
| StrategyLinux.AddIsolation | native/src/strategies/linux.rs:24-34 | the four isolation flags, then the network flag |
| StrategyLinux.AddRoot | native/src/strategies/linux.rs:36-50 | the read-only host root, /dev, /proc and tmpfs over /tmp, /var/tmp, /root and /run |
| StrategyLinux.AddResolvConf | native/src/strategies/linux.rs:52-73 | the resolv.conf options |
| StrategyLinux.AddCaches | native/src/strategies/linux.rs:93-102 | the cache binds in list order |
| StrategyLinux.AddHome | native/src/strategies/linux.rs:75-103 | the home options |
| StrategyLinux.BuildArgs | native/src/strategies/linux.rs:22-136 | the argument vector is the flattened option list, then `--`, the command and its arguments |
| StrategyLinux.BuildEnv | native/src/strategies/linux.rs:113-131 | the environment is the whitelisted host variables with the context's over them |
| StrategyLinux.BuildCommand | native/src/strategies/linux.rs:19-136 | fails with the install hint iff bwrap cannot be found; otherwise runs the located bwrap with a cleared environment and no working directory of its own |
| StrategyLinux.NetworkFlagMatchesPolicy | native/src/strategies/linux.rs:30-34 | the fifth flag is the network flag; `--unshare-net` appears iff the network is denied and `--share-net` iff it is allowed |
| StrategyLinux.RestHasNoNetworkFlag | native/src/strategies/linux.rs:36-111 | no later section adds a network flag |
| StrategyLinux.HomeFlags | native/src/strategies/linux.rs:75-103 | the home section only adds tmpfs mounts and read-only binds |
| StrategyLinux.CacheOptsAreBinds | native/src/strategies/linux.rs:93-102 | every cache bind made is a read-only bind of an existing listed cache to `HOME/<dir>` |
| StrategyLinux.ExistingCachesAreBound | native/src/strategies/linux.rs:93-102 | every listed cache that exists is bound |
| StrategyLinux.HomeSection | native/src/strategies/linux.rs:75-103 | nothing when HOME is unset or missing; otherwise a tmpfs over HOME first, then the cache binds |
| StrategyLinux.ArgsLayout | native/src/strategies/linux.rs:106-136 | the workspace is bound read-write at its own path and used as `--chdir`, right before `--`, the command and its arguments, which end the vector |
| StrategyLinux.ResolvConfCases | native/src/strategies/linux.rs:52-73 | a symlink into /run gets its parent directory and a read-only bind of its target; a symlink elsewhere gets nothing; a file that is not a symlink is bound read-only iff it exists |
| StrategyLinux.EnvWhitelist | native/src/strategies/linux.rs:113-131 | a variable reaches the child iff the caller sets it or it is whitelisted and set on the host; the caller's value wins |
| StrategyWindows.RewriteForShell | native/src/strategies/windows.rs:25-38 | a builtin or batch file becomes `cmd /c <original name> args`; anything else is unchanged |
| StrategyWindows.BuildEnv | native/src/strategies/windows.rs:49-74 | the child's environment is the critical host variables, then the caller's, then the dead-end proxies when the network is denied |
| StrategyWindows.BuildCommand | native/src/strategies/windows.rs:24-85 | the rewritten or resolved program, the arguments, a cleared environment and the context's directory or the workspace root |
| StrategyWindows.ShellRewriteIgnoresCase | native/src/strategies/windows.rs:27-34 | names that lowercase alike are treated alike |
| StrategyWindows.ShellRewriteExamples | native/src/strategies/windows.rs:29-34 | `ECHO`, `Ver` and `build.BAT` go through cmd |
| StrategyWindows.NoRewriteExamples | native/src/strategies/windows.rs:29-44 | `cmd` itself and `git` are not wrapped |
| StrategyWindows.DeniedNetworkForcesProxies | native/src/strategies/windows.rs:69-74 | with the network denied the proxies hold their dead-end values whatever the caller set |
| StrategyWindows.AllowedNetworkLeavesProxies | native/src/strategies/windows.rs:49-74 | with the network allowed a proxy variable comes only from the caller |
| StrategyWindows.EnvWhitelist | native/src/strategies/windows.rs:49-67 | any other variable is present iff the caller sets it or it is critical and set on the host; the caller's value wins |
| StrategyMacos.Home | native/src/strategies/macos.rs:23 | HOME, or /var/tmp when it is unset |
| StrategyMacos.BuildCommand | native/src/strategies/macos.rs:16-80 | fails iff sandbox-exec is missing; otherwise `sandbox-exec -p <profile> cmd args`, the host environment with the context's over it, and the context's directory or the workspace root |
| StrategyMacos.ProfileLayout | native/src/strategies/macos.rs:31-58 | the profile denies all writes, then re-allows them for the workspace first and then the temporary and cache directories, then states the network rule |
| StrategyMacos.NetworkRuleMatchesPolicy | native/src/strategies/macos.rs:25-49 | the profile holds the allow-network rule iff the network is allowed and the deny rule iff not |
| StrategyMacos.JoinedLineFollowsNewline | native/src/strategies/macos.rs:31-58 | every line after the first appears in the text right after a newline |
| StrategyMacos.ProfileTextNamesWorkspaceAndPolicy | native/src/strategies/macos.rs:31-58 | the workspace path and the network rule appear verbatim in the text passed to sandbox-exec |
| StrategyMacos.EnvPassesThrough | native/src/strategies/macos.rs:64-66 | every host variable is passed on unless the context overrides it |
| StrategyHost.BuildCommand | native/src/strategies/host.rs:15-53 | on Windows a builtin becomes `cmd /c <original name> args`; otherwise the resolved program runs with its arguments, an inherited environment plus the context's, and the context's directory or the workspace root |
| StrategyHost.PassThroughOffWindows | native/src/strategies/host.rs:19 | off Windows nothing is rewritten |
| StrategyHost.HostRuleIsNarrower | native/src/strategies/host.rs:19-30 | every host rewrite is a Windows-strategy rewrite, but `ver` and batch files are rewritten only by the Windows strategy |
| StrategyHost.HostEnvMatchesMacos | native/src/strategies/host.rs:38-41 | the inherited environment plus the context's is exactly what the macOS strategy builds explicitly |
| LauncherMain.FindFirst | native/src/main.rs:49-50 | the index of the first occurrence, or none iff the character does not occur |
| LauncherMain.ParseKeyVal | native/src/main.rs:48-53 | fails with the message iff there is no `=`; otherwise the key has no `=` and key, `=` and value rebuild the input |
| LauncherMain.KeyValRoundTrip | native/src/main.rs:48-53 | a key without `=` and any value parse back to themselves |
| LauncherMain.EnvMap | native/src/main.rs:69 | the collected map has exactly the keys given |
| LauncherMain.LastPairWins | native/src/main.rs:69 | a key repeated on the command line takes its last value |
| LauncherMain.ContextOf | native/src/main.rs:64-72 | the first word is the program and the rest its arguments; the network is allowed iff --no-net is absent |
| LauncherMain.LauncherExitCode | native/src/main.rs:59-81 | 98 without a command, 99 on an engine error, otherwise the engine's code |
| LauncherMain.NoCommandIgnoresEngine | native/src/main.rs:59-62 | without a command the engine is never consulted |

## Left out

- StrategyWindows.BuildCommand: the job object (windows.rs:87-102) is Win32 FFI and is not modelled, so the model never fails where `CreateJobObjectW`, `SetInformationJobObject` or `AssignProcessToJobObject` could.
- StrategyBase.ToLower: folds ASCII letters only; `str::to_lowercase` also folds non-ASCII letters.
- StrategyWindows.EnvWhitelist: environment names are compared case-sensitively; Windows compares them without regard to case.
- WorkspaceCore.IsRunning: the optional `exit_code` out-pointer is always written in the model; a null pointer there only suppresses that write.
- WorkspaceCore.ReadStdout: the bytes read are not modelled, only the returned count; the same holds for ReadStderr and the Windows reads.
- LauncherMain.LauncherExitCode: `process::exit` receives the engine's code unchanged; how the OS truncates it is not modelled.
- ProcessLinux.StartProcessLinux: `set_nonblocking` is modelled as always succeeding; its F_GETFL failure path is not modelled.
- The engine (native/src/engine.rs) is async orchestration over tokio; it appears only as a function parameter.
- Option parsing by clap (main.rs:18-46) is library behaviour; the model starts from the parsed `CliArgs`.
- Standard-stream configuration (`Stdio::null`/`piped`) and the `name()` strings of the strategies carry no logic that is modelled.
- `Utf8ToWide` is a conversion through the Win32 API; strings are the same sequence of characters on both sides.
- `SetHandleInformation` and the `FD_CLOEXEC` flag are modelled only by their effect: the child writes its report and the parent reads it.
- `delete handle` in `workspace_free_handle`: memory is not modelled.
- The `ReadPipeUnix` declaration (internal_api.h:61) has no definition, and internal_api.h declares `StartProcessWindows` without its last parameter; the model follows the definitions.
- `HashMap` iteration order: the model applies the caller's variables in an arbitrary order, which gives the same map.
- `fs::read_link`, `fs::canonicalize`, `Path::exists`, `which` and `env::var` are lookups in `HostView`; `to_string_lossy` is the identity on strings.
- `close`, `kill`, `CloseHandle`, `FreeSid` and `TerminateProcess` are modelled as always succeeding; the code ignores their results, so only the state they leave behind would differ.
- `DeriveAppContainerTokenFromToken` is an outcome of its own: the model does not tie its result to whether the SID handed to it (line 149) is NULL, which it is whenever the profile call did not return S_OK.
- A failed `dup2` in the forked child exits without writing the report pipe, so the parent returns a handle for a child that never ran its command. This is modelled as written.

## Findings

| source | as written | input that shows it | evidently intended | confidence | as-written member | corrected member |
|---|---|---|---|---|---|---|
| native/src/windows/process_win.cpp:16 | "already exists" is taken to be 0x800705AA, the HRESULT of Win32 error 1450 (insufficient system resources) | `CreateAppContainerProfile` returning HRESULT_FROM_WIN32(ERROR_ALREADY_EXISTS) = 0x800700B7 for a profile made by an earlier run: the guard at line 121 rejects it, the container is not reused and the launch falls back to an unrestricted process | accept 0x800700B7 so that an existing profile is reused; reuse also needs the SID of the existing profile (for example from `DeriveAppContainerSidFromAppContainerName`), because line 149 passes on the SID that the profile call leaves NULL when it fails | not executed | ProcessWin.AsWrittenRejectsAlreadyExists, ProcessWin.ExistingProfileRunsUnrestricted | ProcessWin.ProfileReuseAccepted |

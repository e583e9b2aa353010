/** The launcher's entry point (native/src/main.rs): KEY=VALUE parsing of
    --env options, the mapping from parsed arguments to an ExecutionContext,
    and the process exit codes. Option parsing itself and the engine are
    parameters. */
module LauncherMain {
  import opened Wrappers
  import opened StrategyBase

  /** str::find for one character: the index of its first occurrence. */
  function FindFirst(s: string, c: char): (r: Option<nat>)
    ensures r.None? <==> c !in s
    ensures r.Some? ==> r.value < |s| && s[r.value] == c && c !in s[..r.value]
  {
    if |s| == 0 then None
    else if s[0] == c then Some(0)
    else match FindFirst(s[1..], c)
      case None => None
      case Some(i) =>
        assert s[..i + 1] == [s[0]] + s[1..][..i];
        Some(i + 1)
  }

  function NoEqualsMessage(s: string): string {
    "Invalid KEY=value format: no '=' found in `" + s + "`"
  }

  /** parse_key_val: split at the first '='. */
  function ParseKeyVal(s: string): (r: Result<(string, string), string>)
    ensures r.Failure? <==> '=' !in s
    ensures r.Failure? ==> r.error == NoEqualsMessage(s)
    ensures r.Success? ==> '=' !in r.value.0 && r.value.0 + "=" + r.value.1 == s
  {
    match FindFirst(s, '=')
    case None => Failure(NoEqualsMessage(s))
    case Some(pos) =>
      assert s == s[..pos] + "=" + s[pos + 1..];
      Success((s[..pos], s[pos + 1..]))
  }

  /** Joining a key without '=' to a value and parsing it back gives both. */
  lemma KeyValRoundTrip(key: string, value: string)
    requires '=' !in key
    ensures ParseKeyVal(key + "=" + value) == Success((key, value))
  {
    var s := key + "=" + value;
    var r := ParseKeyVal(s);
    assert '=' in s by { assert s[|key|] == '='; }
    var k, v := r.value.0, r.value.1;
    assert s[..|key|] == key;
    // Both splits end their key at the first '=' of s, so the keys coincide.
    assert forall i :: 0 <= i < |key| ==> s[i] == key[i] != '=';
    assert forall i :: 0 <= i < |k| ==> s[i] == k[i] != '=';
    assert s[|key|] == '=' && s[|k|] == '=';
    assert k == s[..|k|] == key;
    assert v == s[|k| + 1..] == value;
  }

  /** The --env pairs collected into a map: a later pair for the same key
      replaces an earlier one. */
  function EnvMap(pairs: seq<(string, string)>): (env: map<string, string>)
    ensures forall k :: k in env <==> exists j :: 0 <= j < |pairs| && pairs[j].0 == k
    decreases |pairs|
  {
    if pairs == [] then map[]
    else
      var last := pairs[|pairs| - 1];
      var rest := pairs[..|pairs| - 1];
      assert forall j :: 0 <= j < |rest| ==> rest[j] == pairs[j];
      EnvMap(rest)[last.0 := last.1]
  }

  /** The value a key receives is the one of its last pair. */
  lemma {:induction false} LastPairWins(pairs: seq<(string, string)>, j: nat)
    requires j < |pairs|
    requires forall l :: j < l < |pairs| ==> pairs[l].0 != pairs[j].0
    ensures pairs[j].0 in EnvMap(pairs) && EnvMap(pairs)[pairs[j].0] == pairs[j].1
    decreases |pairs|
  {
    if j < |pairs| - 1 {
      var rest := pairs[..|pairs| - 1];
      LastPairWins(rest, j);
    }
  }

  /** The parsed options, after clap. */
  datatype CliArgs = CliArgs(id: string, workspace: string, sandbox: bool, noNet: bool,
                             cwd: Option<string>, env: seq<(string, string)>, command: seq<string>)

  /** main, lines 64-72: the first word is the program, the rest its
      arguments, and the network is allowed unless --no-net was given. */
  function ContextOf(a: CliArgs): (ctx: ExecutionContext)
    requires |a.command| > 0
    ensures ctx.cmd == a.command[0] && [ctx.cmd] + ctx.args == a.command
    ensures ctx.allowNetwork <==> !a.noNet
    ensures ctx.id == a.id && ctx.rootPath == a.workspace && ctx.cwd == a.cwd
    ensures ctx.envVars == EnvMap(a.env)
  {
    ExecutionContext(a.id, a.workspace, a.command[0], a.command[1..], EnvMap(a.env), a.cwd, !a.noNet)
  }

  const NO_COMMAND_EXIT: int := 98
  const FATAL_ERROR_EXIT: int := 99

  /** main: the exit status of the launcher, given the engine as a function
      of the sandbox flag and the context. */
  function LauncherExitCode(a: CliArgs, engine: (bool, ExecutionContext) -> Result<int, string>): (code: int)
    ensures |a.command| == 0 ==> code == NO_COMMAND_EXIT
    ensures |a.command| > 0 && engine(a.sandbox, ContextOf(a)).Failure? ==> code == FATAL_ERROR_EXIT
    ensures |a.command| > 0 && engine(a.sandbox, ContextOf(a)).Success? ==>
      code == engine(a.sandbox, ContextOf(a)).value
  {
    if |a.command| == 0 then NO_COMMAND_EXIT
    else match engine(a.sandbox, ContextOf(a))
      case Success(c) => c
      case Failure(_) => FATAL_ERROR_EXIT
  }

  /** Without a command the engine is never consulted: any two engines give
      the same exit status. */
  lemma NoCommandIgnoresEngine(a: CliArgs, e1: (bool, ExecutionContext) -> Result<int, string>,
                               e2: (bool, ExecutionContext) -> Result<int, string>)
    requires |a.command| == 0
    ensures LauncherExitCode(a, e1) == LauncherExitCode(a, e2) == NO_COMMAND_EXIT
  {
  }
}

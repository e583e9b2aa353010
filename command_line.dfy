/** The shell-like tokenizer of the Linux launcher, parse_command_line
    (native/src/linux/process_linux.cpp). It walks the command line once,
    keeping the tokens emitted so far, the token being accumulated and three
    mode flags: inside single quotes, inside double quotes, and "the next
    character is escaped". */
module CommandLine {
  import opened Wrappers

  /** The loop state between two characters. */
  datatype Lexer = Lexer(parts: seq<string>, current: string,
                         inSingleQuote: bool, inDoubleQuote: bool, escape: bool)

  const Start: Lexer := Lexer([], [], false, false, false)

  predicate IsBlank(c: char) { c == ' ' || c == '\t' }

  /** A state in which a blank separates tokens and a backslash escapes. */
  predicate Neutral(st: Lexer) { !st.inSingleQuote && !st.inDoubleQuote && !st.escape }

  /** One pass of the loop body on character c. */
  function Step(st: Lexer, c: char): Lexer {
    if st.escape then
      st.(current := st.current + [c], escape := false)
    else if c == '\\' && !st.inSingleQuote then
      st.(escape := true)
    else if c == '\'' && !st.inDoubleQuote then
      st.(inSingleQuote := !st.inSingleQuote)
    else if c == '"' && !st.inSingleQuote then
      st.(inDoubleQuote := !st.inDoubleQuote)
    else if IsBlank(c) && !st.inSingleQuote && !st.inDoubleQuote then
      (if st.current != [] then st.(parts := st.parts + [st.current], current := []) else st)
    else
      st.(current := st.current + [c])
  }

  /** The state after the loop has consumed s, starting from st. */
  function Run(st: Lexer, s: string): Lexer
    decreases |s|
  {
    if s == [] then st else Step(Run(st, s[..|s| - 1]), s[|s| - 1])
  }

  /** After the loop, a non-empty pending token is emitted. */
  function Finish(st: Lexer): seq<string> {
    if st.current != [] then st.parts + [st.current] else st.parts
  }

  function TokensOf(s: string): seq<string> { Finish(Run(Start, s)) }

  /** The tokens parse_command_line returns; None stands for a null pointer. */
  function Tokenize(commandLine: Option<string>): seq<string> {
    if commandLine.None? || commandLine.value == [] then [] else TokensOf(commandLine.value)
  }

  /** parse_command_line: the character loop with its mode flags. */
  method ParseCommandLine(commandLine: Option<string>) returns (parts: seq<string>)
    ensures parts == Tokenize(commandLine)
  {
    parts := [];
    if commandLine.None? || commandLine.value == [] {
      return;
    }
    var cmd := commandLine.value;
    var current: string := [];
    var inSingleQuote, inDoubleQuote, escape := false, false, false;
    for i := 0 to |cmd|
      invariant Run(Start, cmd[..i]) == Lexer(parts, current, inSingleQuote, inDoubleQuote, escape)
    {
      assert cmd[..i + 1][..i] == cmd[..i];
      var c := cmd[i];
      if escape {
        current := current + [c];
        escape := false;
        continue;
      }
      if c == '\\' && !inSingleQuote {
        escape := true;
        continue;
      }
      if c == '\'' && !inDoubleQuote {
        inSingleQuote := !inSingleQuote;
        continue;
      }
      if c == '"' && !inSingleQuote {
        inDoubleQuote := !inDoubleQuote;
        continue;
      }
      if (c == ' ' || c == '\t') && !inSingleQuote && !inDoubleQuote {
        if current != [] {
          parts := parts + [current];
          current := [];
        }
        continue;
      }
      current := current + [c];
    }
    assert cmd[..|cmd|] == cmd;
    if current != [] {
      parts := parts + [current];
    }
  }

  // ---------------------------------------------------------------------
  // Structure of the loop

  /** Consuming a then b is consuming a + b. */
  lemma {:induction false} RunAppend(st: Lexer, a: string, b: string)
    ensures Run(st, a + b) == Run(Run(st, a), b)
    decreases |b|
  {
    if b == [] {
      assert a + b == a;
    } else {
      var b' := b[..|b| - 1];
      assert (a + b)[..|a + b| - 1] == a + b';
      assert (a + b)[|a + b| - 1] == b[|b| - 1];
      RunAppend(st, a, b');
    }
  }

  lemma RunOne(st: Lexer, c: char)
    ensures Run(st, [c]) == Step(st, c)
  {
    assert [c][..0] == [];
  }

  function WithPrefix(st: Lexer, p: seq<string>): Lexer { st.(parts := p + st.parts) }

  /** Tokens already emitted never influence what the loop does next. */
  lemma {:induction false} RunShift(st: Lexer, p: seq<string>, s: string)
    ensures Run(WithPrefix(st, p), s) == WithPrefix(Run(st, s), p)
    decreases |s|
  {
    if s != [] {
      RunShift(st, p, s[..|s| - 1]);
      var m := Run(st, s[..|s| - 1]);
      assert (p + m.parts) + [m.current] == p + (m.parts + [m.current]);
    }
  }

  // ---------------------------------------------------------------------
  // Properties of the tokenizer

  ghost predicate NoEmptyParts(st: Lexer) {
    forall k :: 0 <= k < |st.parts| ==> st.parts[k] != []
  }

  lemma {:induction false} RunKeepsPartsNonEmpty(s: string)
    ensures NoEmptyParts(Run(Start, s))
    decreases |s|
  {
    if s != [] {
      RunKeepsPartsNonEmpty(s[..|s| - 1]);
    }
  }

  /** No emitted token is empty: blanks outside quotes only separate tokens,
      and an empty quoted pair contributes nothing. */
  lemma TokensAreNonEmpty(commandLine: Option<string>)
    ensures forall k :: 0 <= k < |Tokenize(commandLine)| ==> Tokenize(commandLine)[k] != []
  {
    if commandLine.Some? {
      RunKeepsPartsNonEmpty(commandLine.value);
    }
  }

  /** A present command line is tokenized by the loop, the empty one too. */
  lemma TokenizePresent(x: string)
    ensures Tokenize(Some(x)) == TokensOf(x)
  {
    if x == [] {
      assert Run(Start, x) == Start;
    }
  }

  /** Emitting the pending token commutes with a prefix of emitted tokens. */
  lemma FinishShift(st: Lexer, p: seq<string>)
    ensures Finish(WithPrefix(st, p)) == p + Finish(st)
  {
    if st.current != [] {
      assert (p + st.parts) + [st.current] == p + (st.parts + [st.current]);
    }
  }

  /** An unquoted, unescaped blank splits the command line: the tokens of
      s + blank + t are those of s followed by those of t. */
  lemma UnquotedBlankSeparates(s: string, b: char, t: string)
    requires IsBlank(b) && Neutral(Run(Start, s))
    ensures Tokenize(Some(s + [b] + t)) == Tokenize(Some(s)) + Tokenize(Some(t))
  {
    TokenizePresent(s + [b] + t);
    TokenizePresent(s);
    TokenizePresent(t);
    var S := Run(Start, s);
    var T := Run(Start, t);
    RunAppend(Start, s, [b]);
    RunOne(S, b);
    assert Run(Start, s + [b]) == WithPrefix(Start, Finish(S));
    RunAppend(Start, s + [b], t);
    RunShift(Start, Finish(S), t);
    assert Run(Start, s + [b] + t) == WithPrefix(T, Finish(S));
    FinishShift(T, Finish(S));
  }

  /** An empty quoted pair leaves the lexer where it started. */
  lemma EmptyQuotesAreNeutral()
    ensures Run(Start, "''") == Start
  {
    RunOne(Start, '\'');
    RunAppend(Start, "'", "'");
    assert "'" + "'" == "''";
    RunOne(Run(Start, "'"), '\'');
  }

  /** A single unquoted character is a token of its own. */
  lemma SingleCharToken(c: char)
    requires !IsBlank(c) && c != '\\' && c != '\'' && c != '"'
    ensures Tokenize(Some([c])) == [[c]]
  {
    TokenizePresent([c]);
    RunOne(Start, c);
    assert Step(Start, c) == Lexer([], [c], false, false, false);
  }

  /** A pair of empty quotes between blanks yields no token: `a '' b` is [a, b]. */
  lemma EmptyQuotesYieldNoToken()
    ensures Tokenize(Some("a '' b")) == ["a", "b"]
  {
    EmptyQuotesAreNeutral();
    SingleCharToken('a');
    SingleCharToken('b');
    UnquotedBlankSeparates("''", ' ', "b");
    assert "''" + [' '] + "b" == "'' b";
    assert Tokenize(Some("''")) == [];
    UnquotedBlankSeparates("a", ' ', "'' b");
    assert "a" + [' '] + "'' b" == "a '' b";
  }

  /** Inside single quotes every character except ' is kept as written,
      including blanks, backslashes and double quotes. */
  lemma {:induction false} SingleQuotedRun(st: Lexer, t: string)
    requires st.inSingleQuote && !st.escape && '\'' !in t
    ensures Run(st, t) == st.(current := st.current + t)
    decreases |t|
  {
    if t == [] {
      assert st.current + t == st.current;
    } else {
      var t' := t[..|t| - 1];
      assert forall k :: 0 <= k < |t'| ==> t'[k] == t[k];
      SingleQuotedRun(st, t');
      assert st.current + t' + [t[|t| - 1]] == st.current + t;
    }
  }

  lemma SingleQuotedIsLiteral(t: string)
    requires t != [] && '\'' !in t
    ensures Tokenize(Some("'" + t + "'")) == [t]
  {
    RunOne(Start, '\'');
    var q := Run(Start, "'");
    RunAppend(Start, "'", t);
    SingleQuotedRun(q, t);
    RunAppend(Start, "'" + t, "'");
    RunOne(Run(Start, "'" + t), '\'');
    assert [] + t == t;
  }

  /** Inside double quotes every character except " and \ is kept as written,
      including blanks and single quotes. */
  lemma {:induction false} DoubleQuotedRun(st: Lexer, t: string)
    requires st.inDoubleQuote && !st.inSingleQuote && !st.escape && '"' !in t && '\\' !in t
    ensures Run(st, t) == st.(current := st.current + t)
    decreases |t|
  {
    if t == [] {
      assert st.current + t == st.current;
    } else {
      var t' := t[..|t| - 1];
      assert forall k :: 0 <= k < |t'| ==> t'[k] == t[k];
      DoubleQuotedRun(st, t');
      assert st.current + t' + [t[|t| - 1]] == st.current + t;
    }
  }

  lemma DoubleQuotedIsLiteral(t: string)
    requires t != [] && '"' !in t && '\\' !in t
    ensures Tokenize(Some("\"" + t + "\"")) == [t]
  {
    RunOne(Start, '"');
    var q := Run(Start, "\"");
    RunAppend(Start, "\"", t);
    DoubleQuotedRun(q, t);
    RunAppend(Start, "\"" + t, "\"");
    RunOne(Run(Start, "\"" + t), '"');
    assert [] + t == t;
  }

  /** Outside single quotes (so also inside double quotes) a backslash makes
      the next character part of the current token, whatever it is. */
  lemma EscapedCharIsLiteral(s: string, c: char)
    requires !Run(Start, s).inSingleQuote && !Run(Start, s).escape
    ensures Run(Start, s + ['\\', c]) == Run(Start, s).(current := Run(Start, s).current + [c])
  {
    RunAppend(Start, s, ['\\', c]);
    RunAppend(Run(Start, s), ['\\'], [c]);
    assert ['\\'] + [c] == ['\\', c];
    RunOne(Run(Start, s), '\\');
    RunOne(Run(Run(Start, s), ['\\']), c);
  }

  /** A lone backslash at the very end is dropped. */
  lemma TrailingBackslashDropped(s: string)
    requires !Run(Start, s).inSingleQuote && !Run(Start, s).escape
    ensures Tokenize(Some(s + ['\\'])) == Tokenize(Some(s))
  {
    RunAppend(Start, s, ['\\']);
    RunOne(Run(Start, s), '\\');
  }

  /** Quote character q at position i of s is kept as text: the character
      before it was a backslash, or it sits inside the other kind of quote. */
  ghost predicate QuoteKept(s: string, i: nat, q: char)
    requires i < |s|
  {
    var m := Run(Start, s[..i]);
    s[i] == q && (m.escape || (q == '\'' && m.inDoubleQuote) || (q == '"' && m.inSingleQuote))
  }

  /** Character q is in an emitted token or in the pending one. */
  ghost predicate Holds(st: Lexer, q: char) {
    q in st.current || exists k :: 0 <= k < |st.parts| && q in st.parts[k]
  }

  ghost predicate InSomeToken(ts: seq<string>, q: char) {
    exists k :: 0 <= k < |ts| && q in ts[k]
  }

  /** One step adds a quote character to the text exactly when it is kept,
      and never removes one. */
  lemma StepHolds(m: Lexer, c: char, q: char)
    requires q == '\'' || q == '"'
    ensures Holds(Step(m, c), q) <==>
      Holds(m, q) || (c == q && (m.escape || (q == '\'' && m.inDoubleQuote) || (q == '"' && m.inSingleQuote)))
  {
    var n := Step(m, c);
    if !m.escape && IsBlank(c) && !m.inSingleQuote && !m.inDoubleQuote && m.current != [] {
      assert n.parts == m.parts + [m.current];
      if q in m.current {
        assert q in n.parts[|m.parts|];
      }
      if Holds(n, q) {
        var k :| 0 <= k < |n.parts| && q in n.parts[k];
        if k < |m.parts| {
          assert n.parts[k] == m.parts[k];
        }
      }
      if Holds(m, q) && q !in m.current {
        var k :| 0 <= k < |m.parts| && q in m.parts[k];
        assert n.parts[k] == m.parts[k];
      }
    }
  }

  lemma {:induction false} RunHolds(s: string, q: char)
    requires q == '\'' || q == '"'
    ensures Holds(Run(Start, s), q) <==> exists i :: 0 <= i < |s| && QuoteKept(s, i, q)
    decreases |s|
  {
    if s != [] {
      var n := |s| - 1;
      var s' := s[..n];
      RunHolds(s', q);
      StepHolds(Run(Start, s'), s[n], q);
      forall i | 0 <= i < n
        ensures QuoteKept(s, i, q) == QuoteKept(s', i, q)
      {
        assert s[..i] == s'[..i];
      }
      if exists i :: 0 <= i < |s| && QuoteKept(s, i, q) {
        var i :| 0 <= i < |s| && QuoteKept(s, i, q);
        if i < n {
          assert QuoteKept(s', i, q);
        }
      }
      assert s[..n] == s';
      var m := Run(Start, s');
      if s[n] == q && (m.escape || (q == '\'' && m.inDoubleQuote) || (q == '"' && m.inSingleQuote)) {
        assert QuoteKept(s, n, q);
      }
      if Holds(m, q) {
        var i :| 0 <= i < n && QuoteKept(s', i, q);
        assert QuoteKept(s, i, q);
      }
    }
  }

  /** The pending token is emitted at the end, so a character held in the
      state reaches the result. */
  lemma FinishHolds(st: Lexer, q: char)
    ensures InSomeToken(Finish(st), q) <==> Holds(st, q)
  {
    if st.current != [] {
      var f := Finish(st);
      if q in st.current {
        assert q in f[|st.parts|];
      }
      if InSomeToken(f, q) {
        var k :| 0 <= k < |f| && q in f[k];
        if k < |st.parts| {
          assert f[k] == st.parts[k];
        }
      }
      if q !in st.current && Holds(st, q) {
        var k :| 0 <= k < |st.parts| && q in st.parts[k];
        assert f[k] == st.parts[k];
      }
    }
  }

  /** A single quote reaches a token exactly when one occurrence of it is
      escaped or inside double quotes; every other single quote only opens or
      closes a quoted section. */
  lemma SingleQuoteSurvives(s: string)
    ensures InSomeToken(Tokenize(Some(s)), '\'') <==> exists i :: 0 <= i < |s| && QuoteKept(s, i, '\'')
  {
    TokenizePresent(s);
    FinishHolds(Run(Start, s), '\'');
    RunHolds(s, '\'');
  }

  /** Symmetrically, a double quote reaches a token exactly when one
      occurrence of it is escaped or inside single quotes. */
  lemma DoubleQuoteSurvives(s: string)
    ensures InSomeToken(Tokenize(Some(s)), '"') <==> exists i :: 0 <= i < |s| && QuoteKept(s, i, '"')
  {
    TokenizePresent(s);
    FinishHolds(Run(Start, s), '"');
    RunHolds(s, '"');
  }
}

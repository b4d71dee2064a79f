/** Shell quoting (internal/session/resolve.go) and the command line of the session launcher
    (internal/session/launch.go), read back by a POSIX shell.

    The reader follows the token recognition of POSIX.1-2017 Shell Command Language: the backslash
    of section 2.2.1, single quotes of section 2.2.2, blanks between words, and `;` between
    commands. It refuses every other character that is special outside quotes. */
module ShellQuote {
  import opened Text

  const SINGLE := "'"
  const CLOSE_ESCAPE_OPEN := "'\\''"

  /** shellQuote */
  function Quote(s: string): string {
    "'" + ReplaceAll(s, SINGLE, CLOSE_ESCAPE_OPEN) + "'"
  }

  // ---------- the reader ----------

  datatype Mode = Plain | Quoted | Escaped | Refused

  /** The commands that were ended by `;`, the words of the current command, and the word being
      read, if one was begun: an empty quoted string begins one. */
  datatype Shell = Shell(done: seq<seq<string>>, words: seq<string>, word: Option<string>, mode: Mode)

  const START := Shell([], [], None, Plain)

  predicate Special(c: char) {
    || c == '|' || c == '&' || c == '<' || c == '>' || c == '(' || c == ')' || c == '$' || c == '`' || c == '"'
    || c == '*' || c == '?' || c == '[' || c == '#' || c == '~' || c == '%' || c == '!' || c == '{' || c == '}' || c == '\n'
  }

  /** Characters that stand for themselves outside quotes. */
  predicate Ordinary(c: char) {
    c != '\'' && c != '\\' && c != ' ' && c != '\t' && c != ';' && !Special(c)
  }

  function TextOf(word: Option<string>): string {
    match word case None => "" case Some(w) => w
  }

  function WithWord(words: seq<string>, word: Option<string>): seq<string> {
    match word case None => words case Some(w) => words + [w]
  }

  function Put(st: Shell, c: char): Shell {
    st.(word := Some(TextOf(st.word) + [c]))
  }

  function Step(st: Shell, c: char): Shell {
    match st.mode
    case Refused => st
    case Quoted => if c == '\'' then st.(mode := Plain) else Put(st, c)
    case Escaped => if c == '\n' then st.(mode := Plain) else Put(st, c).(mode := Plain)
    case Plain =>
      if c == '\'' then st.(word := Some(TextOf(st.word)), mode := Quoted)
      else if c == '\\' then st.(mode := Escaped)
      else if c == ' ' || c == '\t' then Shell(st.done, WithWord(st.words, st.word), None, Plain)
      else if c == ';' then
        var words := WithWord(st.words, st.word);
        if words == [] then st.(mode := Refused) else Shell(st.done + [words], [], None, Plain)
      else if Special(c) then st.(mode := Refused)
      else Put(st, c)
  }

  function Run(st: Shell, s: string): Shell
    decreases |s|
  {
    if s == "" then st else Run(Step(st, s[0]), s[1..])
  }

  /** The finished commands and the words of the last one; None for an open quote, a dangling
      backslash or something refused. */
  function Read(s: string): Option<(seq<seq<string>>, seq<string>)> {
    var st := Run(START, s);
    if st.mode == Plain then Some((st.done, WithWord(st.words, st.word))) else None
  }

  lemma {:induction false} RunAppend(st: Shell, a: string, b: string)
    ensures Run(st, a + b) == Run(Run(st, a), b)
    decreases |a|
  {
    if a == "" {
      assert a + b == b;
    } else {
      assert (a + b)[1..] == a[1..] + b;
      RunAppend(Step(st, a[0]), a[1..], b);
    }
  }

  lemma RunOne(st: Shell, c: char)
    ensures Run(st, [c]) == Step(st, c)
  {
    assert [c][1..] == "";
    assert Run(Step(st, c), "") == Step(st, c);
  }

  // ---------- quoting is inverted ----------

  /** Inside quotes, the escaped text adds exactly the text: at a quote the reader leaves the
      quotes, takes one escaped quote, and enters them again. */
  lemma {:induction false} EscapedTextReadsBack(st: Shell, a: string)
    requires st.mode == Quoted && st.word.Some?
    ensures Run(st, ReplaceAll(a, SINGLE, CLOSE_ESCAPE_OPEN)) == st.(word := Some(st.word.value + a))
    decreases |a|
  {
    if a == "" {
      assert st.word.value + a == st.word.value;
    } else {
      var c, rest := a[0], a[1..];
      var tail := ReplaceAll(rest, SINGLE, CLOSE_ESCAPE_OPEN);
      var next := st.(word := Some(st.word.value + [c]));
      assert st.word.value + a == st.word.value + [c] + rest;
      EscapedTextReadsBack(next, rest);
      assert a[..1] == [c];
      if c == '\'' {
        assert ReplaceAll(a, SINGLE, CLOSE_ESCAPE_OPEN) == CLOSE_ESCAPE_OPEN + tail;
        FourSteps(st);
        RunAppend(st, CLOSE_ESCAPE_OPEN, tail);
      } else {
        assert ReplaceAll(a, SINGLE, CLOSE_ESCAPE_OPEN) == [c] + tail;
        RunOne(st, c);
        RunAppend(st, [c], tail);
      }
    }
  }

  lemma FourSteps(st: Shell)
    requires st.mode == Quoted && st.word.Some?
    ensures Run(st, CLOSE_ESCAPE_OPEN) == st.(word := Some(st.word.value + ['\'']))
  {
    var st1 := Step(st, '\'');
    var st2 := Step(st1, '\\');
    var st3 := Step(st2, '\'');
    RunOne(st, '\'');
    RunOne(st1, '\\');
    RunOne(st2, '\'');
    RunOne(st3, '\'');
    RunAppend(st, "'", "\\");
    RunAppend(st, "'" + "\\", "'");
    RunAppend(st, "'" + "\\" + "'", "'");
    assert CLOSE_ESCAPE_OPEN == "'" + "\\" + "'" + "'";
  }

  /** A quoted string adds its text to the word being read, whatever the text. */
  lemma QuoteReadsBack(st: Shell, a: string)
    requires st.mode == Plain
    ensures Run(st, Quote(a)) == st.(word := Some(TextOf(st.word) + a))
  {
    var inside := st.(word := Some(TextOf(st.word)), mode := Quoted);
    var e := ReplaceAll(a, SINGLE, CLOSE_ESCAPE_OPEN);
    RunOne(st, '\'');
    RunAppend(st, "'", e);
    EscapedTextReadsBack(inside, a);
    var closing := inside.(word := Some(TextOf(st.word) + a));
    RunAppend(st, "'" + e, "'");
    RunOne(closing, '\'');
  }

  /** A quoted string alone is one word, even the empty string. */
  lemma QuotedStringIsOneWord(a: string)
    ensures Read(Quote(a)) == Some(([], [a]))
  {
    QuoteReadsBack(START, a);
    assert "" + a == a && [] + [a] == [a];
  }

  // ---------- appending arguments ----------

  function WithArgs(cmd: string, args: seq<string>): string
    decreases |args|
  {
    if args == [] then cmd
    else WithArgs(cmd, args[..|args| - 1]) + (" " + Quote(args[|args| - 1]))
  }

  /** A command line that reads as some words reads as those words and then exactly the arguments
      once they are appended, each with a space and quoted. */
  lemma {:induction false} ArgsAreReadBack(cmd: string, args: seq<string>)
    requires Read(cmd).Some?
    ensures Read(WithArgs(cmd, args)) == Some((Read(cmd).value.0, Read(cmd).value.1 + args))
    decreases |args|
  {
    if args == [] {
      assert Read(cmd).value.1 + args == Read(cmd).value.1;
    } else {
      var n := |args| - 1;
      ArgsAreReadBack(cmd, args[..n]);
      ArgIsReadBack(WithArgs(cmd, args[..n]), args[n]);
      assert args == args[..n] + [args[n]];
      assert Read(cmd).value.1 + args == Read(cmd).value.1 + args[..n] + [args[n]];
    }
  }

  lemma ArgIsReadBack(cmd: string, arg: string)
    requires Read(cmd).Some?
    ensures Read(cmd + (" " + Quote(arg))) == Some((Read(cmd).value.0, Read(cmd).value.1 + [arg]))
  {
    var st := Run(START, cmd);
    var next := Step(st, ' ');
    RunAppend(START, cmd, " " + Quote(arg));
    RunOne(st, ' ');
    RunAppend(st, " ", Quote(arg));
    QuoteReadsBack(next, arg);
    assert "" + arg == arg;
  }

  method AppendArgs(cmd: string, args: seq<string>) returns (inner: string)
    ensures inner == WithArgs(cmd, args)
  {
    inner := cmd;
    for i := 0 to |args|
      invariant inner == WithArgs(cmd, args[..i])
    {
      assert args[..i + 1][..i] == args[..i];
      inner := inner + (" " + Quote(args[i]));
    }
    assert args[..|args|] == args;
  }
}

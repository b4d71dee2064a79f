/** The command line that starts a session (internal/session/launch.go:299-345), as the shell
    reads it. */
module Launch {
  import opened Text
  import opened ShellQuote

  /** The client and what it needs: the path of its program, and for opencode its config file. */
  datatype Client = Claude(path: string, permissionMode: string) | Opencode(path: string, config: string) | Terminal(path: string)

  datatype Session = Session(shipId: string, tier: string, supervisor: string, project: string, client: Client, args: seq<string>)

  const NO_PROMPT := "OPENCODE_DISABLE_CLAUDE_CODE_PROMPT"

  // ---------- what the launcher means to run ----------

  function Exported(name: string, val: string): seq<string> {
    ["export", name + "=" + val]
  }

  function ExportedIf(present: bool, name: string, val: string): seq<seq<string>> {
    if present then [Exported(name, val)] else []
  }

  function ProjectCommands(project: string): seq<seq<string>> {
    if project != "" then [[".", "cf/" + project + "/config.sh"], ["export", "PROJECT"]] else []
  }

  function ConfigCommands(client: Client): seq<seq<string>> {
    if client.Opencode? then
      [Exported("OPENCODE_CONFIG", client.config), Exported(NO_PROMPT, "1")]
    else []
  }

  /** The commands before the last one. */
  function Before(s: Session): seq<seq<string>> {
    [Exported("STARFLEET_SHIP_ID", s.shipId)]
    + ExportedIf(s.tier != "", "AGENT_TIER", s.tier)
    + ExportedIf(s.supervisor != "", "AGENT_SUPERVISOR", s.supervisor)
    + ProjectCommands(s.project)
    + ConfigCommands(s.client)
  }

  /** The last command: the client with its arguments. */
  function Exec(client: Client, args: seq<string>): seq<string> {
    match client
    case Claude(path, mode) => ["exec", path] + (if mode != "" then ["--permission-mode", mode] else []) + args
    case Opencode(path, config) => ["exec", path] + args
    case Terminal(path) => ["exec"] + if args == [] then [path, "-l"] else args
  }

  // ---------- what these commands amount to ----------

  /** The value last exported under a name. */
  function ValueOf(cmds: seq<seq<string>>, name: string): Option<string>
    decreases |cmds|
  {
    if cmds == [] then None
    else
      var last := cmds[|cmds| - 1];
      if |last| == 2 && last[0] == "export" && HasPrefix(last[1], name + "=") then Some(last[1][|name| + 1..])
      else ValueOf(cmds[..|cmds| - 1], name)
  }

  lemma PrefixIsName(n: string, v: string, name: string)
    requires '=' !in n && '=' !in name
    ensures HasPrefix(n + "=" + v, name + "=") <==> n == name
    ensures (n + "=" + v)[|n| + 1..] == v
  {
    IndexOfAfter(n, '=', v);
    if HasPrefix(n + "=" + v, name + "=") {
      var s := n + "=" + v;
      assert s == name + ['='] + s[|name| + 1..];
      IndexOfAfter(name, '=', s[|name| + 1..]);
      assert s[..|n|] == n && s[..|name|] == name;
    }
  }

  lemma ExportSets(cmds: seq<seq<string>>, n: string, v: string, name: string)
    requires '=' !in n && '=' !in name
    ensures ValueOf(cmds + [Exported(n, v)], name) == if n == name then Some(v) else ValueOf(cmds, name)
  {
    PrefixIsName(n, v, name);
    assert (cmds + [Exported(n, v)])[..|cmds|] == cmds;
  }

  lemma OthersSetNothing(cmds: seq<seq<string>>, cmd: seq<string>, name: string)
    requires |cmd| == 2 && (cmd[0] != "export" || '=' !in cmd[1])
    ensures ValueOf(cmds + [cmd], name) == ValueOf(cmds, name)
  {
    assert (cmds + [cmd])[..|cmds|] == cmds;
    if HasPrefix(cmd[1], name + "=") {
      assert cmd[1][..|name| + 1][|name|] == '=';
    }
  }

  lemma SetsIf(cmds: seq<seq<string>>, present: bool, n: string, v: string, name: string)
    requires '=' !in n && '=' !in name
    ensures ValueOf(cmds + ExportedIf(present, n, v), name) == if present && n == name then Some(v) else ValueOf(cmds, name)
  {
    if present {
      ExportSets(cmds, n, v, name);
    } else {
      assert cmds + [] == cmds;
    }
  }

  lemma ProjectSetsNothing(cmds: seq<seq<string>>, project: string, name: string)
    ensures ValueOf(cmds + ProjectCommands(project), name) == ValueOf(cmds, name)
  {
    if project != "" {
      var source := [".", "cf/" + project + "/config.sh"];
      assert cmds + ProjectCommands(project) == cmds + [source] + [["export", "PROJECT"]];
      OthersSetNothing(cmds, source, name);
      OthersSetNothing(cmds + [source], ["export", "PROJECT"], name);
    } else {
      assert cmds + [] == cmds;
    }
  }

  lemma ConfigSets(cmds: seq<seq<string>>, client: Client, name: string)
    requires '=' !in name
    ensures ValueOf(cmds + ConfigCommands(client), name) ==
              if client.Opencode? && name == "OPENCODE_DISABLE_CLAUDE_CODE_PROMPT" then Some("1")
              else if client.Opencode? && name == "OPENCODE_CONFIG" then Some(client.config)
              else ValueOf(cmds, name)
  {
    if client.Opencode? {
      var first := Exported("OPENCODE_CONFIG", client.config);
      assert cmds + ConfigCommands(client) == cmds + [first] + [Exported(NO_PROMPT, "1")];
      ExportSets(cmds, "OPENCODE_CONFIG", client.config, name);
      NoPromptIsOrdinary();
      ExportSets(cmds + [first], NO_PROMPT, "1", name);
    } else {
      assert cmds + [] == cmds;
    }
  }

  /** The environment of the client: its ship always, tier and supervisor if they are given, and for
      opencode its config file and no prompt; nothing else. */
  lemma EnvironmentIs(s: Session, name: string)
    requires '=' !in name
    ensures ValueOf(Before(s), name) ==
              if name == "STARFLEET_SHIP_ID" then Some(s.shipId)
              else if name == "AGENT_TIER" && s.tier != "" then Some(s.tier)
              else if name == "AGENT_SUPERVISOR" && s.supervisor != "" then Some(s.supervisor)
              else if name == "OPENCODE_CONFIG" && s.client.Opencode? then Some(s.client.config)
              else if name == "OPENCODE_DISABLE_CLAUDE_CODE_PROMPT" && s.client.Opencode? then Some("1")
              else None
  {
    var a := [Exported("STARFLEET_SHIP_ID", s.shipId)];
    var b := a + ExportedIf(s.tier != "", "AGENT_TIER", s.tier);
    var c := b + ExportedIf(s.supervisor != "", "AGENT_SUPERVISOR", s.supervisor);
    assert [] + a == a;
    ExportSets([], "STARFLEET_SHIP_ID", s.shipId, name);
    SetsIf(a, s.tier != "", "AGENT_TIER", s.tier, name);
    SetsIf(b, s.supervisor != "", "AGENT_SUPERVISOR", s.supervisor, name);
    ProjectSetsNothing(c, s.project, name);
    ConfigSets(c + ProjectCommands(s.project), s.client, name);
  }

  predicate IsExport(cmd: seq<string>) {
    |cmd| == 2 && cmd[0] == "export"
  }

  /** With a project its settings are sourced, and PROJECT exported after that; nothing else is sourced. */
  lemma ProjectIsSourced(s: Session)
    ensures s.project == "" ==> forall cmd :: cmd in Before(s) ==> IsExport(cmd) && cmd[1] != "PROJECT"
    ensures s.project != "" ==>
              exists a, b :: Before(s) == a + [[".", "cf/" + s.project + "/config.sh"], ["export", "PROJECT"]] + b
                             && (forall cmd :: cmd in a + b ==> IsExport(cmd) && cmd[1] != "PROJECT")
  {
    var a := [Exported("STARFLEET_SHIP_ID", s.shipId)] + ExportedIf(s.tier != "", "AGENT_TIER", s.tier)
             + ExportedIf(s.supervisor != "", "AGENT_SUPERVISOR", s.supervisor);
    var b := ConfigCommands(s.client);
    forall n: string, v: string ensures '=' in n + "=" + v {
      assert (n + "=" + v)[|n|] == '=';
    }
    assert '=' !in "PROJECT";
    assert forall cmd :: cmd in a + b ==> IsExport(cmd) && '=' in cmd[1];
    assert Before(s) == a + ProjectCommands(s.project) + b;
  }

  /** A client gets its arguments last, after its path and, for claude, its permission mode; without a
      client the arguments are the command, or the login shell if there are none. */
  lemma ExecIs(client: Client, args: seq<string>)
    ensures var words := Exec(client, args);
            && words[0] == "exec"
            && (args != [] || !client.Terminal? ==> |words| > |args| && words[|words| - |args|..] == args)
            && (client.Terminal? ==> if args == [] then words[1..] == [client.path, "-l"] else |words| == |args| + 1)
            && (!client.Terminal? ==> words[1] == client.path)
            && (client.Opencode? ==> |words| == |args| + 2)
            && (client.Claude? ==>
                  if client.permissionMode == "" then |words| == |args| + 2
                  else |words| == |args| + 4 && words[2..4] == ["--permission-mode", client.permissionMode])
  {
  }

  // ---------- reading a line piece by piece ----------

  predicate AllOrdinary(t: string) {
    forall i :: 0 <= i < |t| ==> Ordinary(t[i])
  }

  lemma NamesAreOrdinary()
    ensures AllOrdinary("STARFLEET_SHIP_ID") && AllOrdinary("AGENT_TIER") && AllOrdinary("AGENT_SUPERVISOR")
  {
  }

  lemma ConfigNamesAreOrdinary()
    ensures AllOrdinary("OPENCODE_CONFIG") && AllOrdinary(NO_PROMPT + "=" + "1")
  {
    NoPromptIsOrdinary();
    OrdinaryConcat(NO_PROMPT, "=");
    OrdinaryConcat(NO_PROMPT + "=", "1");
  }

  lemma NoPromptIsOrdinary()
    ensures AllOrdinary(NO_PROMPT)
  {
    var first, second := "OPENCODE_DISABLE_", "CLAUDE_CODE_PROMPT";
    assert AllOrdinary(first) && AllOrdinary(second);
    OrdinaryConcat(first, second);
    assert first + second == NO_PROMPT;
  }

  lemma OrdinaryConcat(a: string, b: string)
    requires AllOrdinary(a) && AllOrdinary(b)
    ensures AllOrdinary(a + b)
  {
  }

  lemma WordsAreOrdinary()
    ensures AllOrdinary("cf/") && AllOrdinary("/config.sh") && AllOrdinary("PROJECT")
    ensures AllOrdinary("exec") && AllOrdinary("-l") && AllOrdinary("--permission-mode")
  {
  }

  /** The shell between two commands. */
  function Idle(done: seq<seq<string>>): Shell {
    Shell(done, [], None, Plain)
  }

  lemma {:induction false} RunOrdinary(st: Shell, t: string)
    requires st.mode == Plain && t != "" && AllOrdinary(t)
    ensures Run(st, t) == st.(word := Some(TextOf(st.word) + t))
    decreases |t|
  {
    var next := Step(st, t[0]);
    assert t == [t[0]] + t[1..];
    assert TextOf(st.word) + t == TextOf(st.word) + [t[0]] + t[1..];
    if t[1..] != "" {
      RunOrdinary(next, t[1..]);
    } else {
      assert Run(next, "") == next;
      assert TextOf(st.word) + [t[0]] + "" == TextOf(st.word) + [t[0]];
    }
  }

  /** The space after a word, and the end of a command. */
  lemma RunBlank(st: Shell)
    requires st.mode == Plain
    ensures Run(st, " ") == Shell(st.done, WithWord(st.words, st.word), None, Plain)
  {
    RunOne(st, ' ');
  }

  lemma RunEnd(st: Shell)
    requires st.mode == Plain && WithWord(st.words, st.word) != []
    ensures Run(st, "; ") == Idle(st.done + [WithWord(st.words, st.word)])
  {
    RunOne(st, ';');
    RunBlank(Step(st, ';'));
    RunAppend(st, ";", " ");
    assert "; " == ";" + " ";
  }

  /** The first word of a command, with the space after it. */
  lemma RunCommandName(done: seq<seq<string>>, name: string)
    requires name != "" && AllOrdinary(name)
    ensures Run(Idle(done), name + " ") == Shell(done, [name], None, Plain)
  {
    RunAppend(Idle(done), name, " ");
    RunOrdinary(Idle(done), name);
    assert "" + name == name && [] + [name] == [name];
    RunBlank(Run(Idle(done), name));
  }

  function ExportLine(name: string, val: string): string {
    "export" + " " + name + "=" + Quote(val) + "; "
  }

  lemma ExportReadsBack(done: seq<seq<string>>, name: string, val: string)
    requires name != "" && AllOrdinary(name)
    ensures Run(Idle(done), ExportLine(name, val)) == Idle(done + [Exported(name, val)])
  {
    var st := Idle(done);
    var st1 := Shell(done, ["export"], None, Plain);
    RunCommandName(done, "export");
    RunAppend(st, "export" + " ", name);
    RunOrdinary(st1, name);
    assert "" + name == name;
    var st2 := st1.(word := Some(name));
    RunAppend(st, "export" + " " + name, "=");
    RunOrdinary(st2, "=");
    var st3 := st1.(word := Some(name + "="));
    RunAppend(st, "export" + " " + name + "=", Quote(val));
    QuoteReadsBack(st3, val);
    var st4 := st1.(word := Some(name + "=" + val));
    RunAppend(st, "export" + " " + name + "=" + Quote(val), "; ");
    RunEnd(st4);
    assert ["export"] + [name + "=" + val] == Exported(name, val);
  }

  function SourceLine(project: string): string {
    "." + " " + "cf/" + Quote(project) + "/config.sh" + "; "
  }

  lemma SourceReadsBack(done: seq<seq<string>>, project: string)
    ensures Run(Idle(done), SourceLine(project)) == Idle(done + [[".", "cf/" + project + "/config.sh"]])
  {
    WordsAreOrdinary();
    var st := Idle(done);
    var st1 := Shell(done, ["."], None, Plain);
    RunCommandName(done, ".");
    RunAppend(st, "." + " ", "cf/");
    RunOrdinary(st1, "cf/");
    assert "" + "cf/" == "cf/";
    RunAppend(st, "." + " " + "cf/", Quote(project));
    QuoteReadsBack(st1.(word := Some("cf/")), project);
    var st2 := st1.(word := Some("cf/" + project));
    RunAppend(st, "." + " " + "cf/" + Quote(project), "/config.sh");
    RunOrdinary(st2, "/config.sh");
    RunAppend(st, "." + " " + "cf/" + Quote(project) + "/config.sh", "; ");
    RunEnd(st1.(word := Some("cf/" + project + "/config.sh")));
    assert ["."] + ["cf/" + project + "/config.sh"] == [".", "cf/" + project + "/config.sh"];
  }

  /** `export` with a fixed operand. */
  function MarkLine(operand: string): string {
    "export" + " " + operand + "; "
  }

  lemma MarkReadsBack(done: seq<seq<string>>, operand: string)
    requires operand != "" && AllOrdinary(operand)
    ensures Run(Idle(done), MarkLine(operand)) == Idle(done + [["export", operand]])
  {
    var st1 := Shell(done, ["export"], None, Plain);
    RunCommandName(done, "export");
    RunAppend(Idle(done), "export" + " ", operand);
    RunOrdinary(st1, operand);
    assert "" + operand == operand;
    RunAppend(Idle(done), "export" + " " + operand, "; ");
    RunEnd(st1.(word := Some(operand)));
    assert ["export"] + [operand] == ["export", operand];
  }

  // ---------- the launcher ----------

  /** The environment part of the line. */
  method WriteEnvironment(s: Session) returns (inner: string)
    ensures Run(START, inner) ==
              Idle([Exported("STARFLEET_SHIP_ID", s.shipId)] + ExportedIf(s.tier != "", "AGENT_TIER", s.tier)
                   + ExportedIf(s.supervisor != "", "AGENT_SUPERVISOR", s.supervisor) + ProjectCommands(s.project))
  {
    NamesAreOrdinary();
    inner := ExportLine("STARFLEET_SHIP_ID", s.shipId);
    ghost var done := [Exported("STARFLEET_SHIP_ID", s.shipId)];
    ExportReadsBack([], "STARFLEET_SHIP_ID", s.shipId);
    assert [] + done == done;
    inner := WriteExport(inner, done, s.tier != "", "AGENT_TIER", s.tier);
    done := done + ExportedIf(s.tier != "", "AGENT_TIER", s.tier);
    inner := WriteExport(inner, done, s.supervisor != "", "AGENT_SUPERVISOR", s.supervisor);
    done := done + ExportedIf(s.supervisor != "", "AGENT_SUPERVISOR", s.supervisor);
    inner := WriteProject(inner, done, s.project);
  }

  method WriteExport(line: string, ghost done: seq<seq<string>>, present: bool, name: string, val: string) returns (inner: string)
    requires Run(START, line) == Idle(done) && name != "" && AllOrdinary(name)
    ensures Run(START, inner) == Idle(done + ExportedIf(present, name, val))
  {
    inner := line;
    if present {
      inner := inner + ExportLine(name, val);
      RunAppend(START, line, ExportLine(name, val));
      ExportReadsBack(done, name, val);
    } else {
      assert done + [] == done;
    }
  }

  method WriteProject(line: string, ghost done: seq<seq<string>>, project: string) returns (inner: string)
    requires Run(START, line) == Idle(done)
    ensures Run(START, inner) == Idle(done + ProjectCommands(project))
  {
    inner := line;
    if project != "" {
      WordsAreOrdinary();
      inner := inner + SourceLine(project);
      RunAppend(START, line, SourceLine(project));
      SourceReadsBack(done, project);
      ghost var sourced := done + [[".", "cf/" + project + "/config.sh"]];
      RunAppend(START, inner, MarkLine("PROJECT"));
      MarkReadsBack(sourced, "PROJECT");
      inner := inner + MarkLine("PROJECT");
      assert sourced + [["export", "PROJECT"]] == done + ProjectCommands(project);
    } else {
      assert done + [] == done;
    }
  }

  method WriteConfig(line: string, ghost done: seq<seq<string>>, client: Client) returns (inner: string)
    requires Run(START, line) == Idle(done)
    ensures Run(START, inner) == Idle(done + ConfigCommands(client))
  {
    inner := line;
    if client.Opencode? {
      ConfigNamesAreOrdinary();
      inner := WriteExport(inner, done, true, "OPENCODE_CONFIG", client.config);
      ghost var configured := done + [Exported("OPENCODE_CONFIG", client.config)];
      RunAppend(START, inner, MarkLine(NO_PROMPT + "=" + "1"));
      MarkReadsBack(configured, NO_PROMPT + "=" + "1");
      inner := inner + MarkLine(NO_PROMPT + "=" + "1");
      assert configured + [Exported(NO_PROMPT, "1")] == done + ConfigCommands(client);
    } else {
      assert done + [] == done;
    }
  }

  /** An unquoted word after a space. */
  lemma WordIsReadBack(cmd: string, w: string)
    requires Read(cmd).Some? && w != "" && AllOrdinary(w)
    ensures Read(cmd + (" " + w)) == Some((Read(cmd).value.0, Read(cmd).value.1 + [w]))
  {
    var st := Run(START, cmd);
    RunAppend(START, cmd, " " + w);
    RunBlank(st);
    RunAppend(st, " ", w);
    RunOrdinary(Run(st, " "), w);
    assert "" + w == w;
  }

  /** `exec`, the client and the arguments. */
  method WriteExec(line: string, ghost done: seq<seq<string>>, client: Client, args: seq<string>) returns (inner: string)
    requires Run(START, line) == Idle(done)
    ensures Read(inner) == Some((done, Exec(client, args)))
  {
    WordsAreOrdinary();
    inner := line + "exec";
    RunAppend(START, line, "exec");
    RunOrdinary(Idle(done), "exec");
    assert "" + "exec" == "exec" && [] + ["exec"] == ["exec"];
    if client.Terminal? {
      inner := WriteTerminal(inner, done, client.path, args);
    } else {
      inner := WriteClient(inner, done, client, args);
    }
  }

  method WriteTerminal(cmd: string, ghost done: seq<seq<string>>, path: string, args: seq<string>) returns (inner: string)
    requires Read(cmd) == Some((done, ["exec"]))
    ensures Read(inner) == Some((done, Exec(Terminal(path), args)))
  {
    ArgsAreReadBack(cmd, args);
    inner := AppendArgs(cmd, args);
    if |args| == 0 {
      WordsAreOrdinary();
      ArgIsReadBack(inner, path);
      inner := inner + (" " + Quote(path));
      WordIsReadBack(inner, "-l");
      inner := inner + (" " + "-l");
      assert ["exec"] + [] + [path] + ["-l"] == ["exec"] + [path, "-l"];
    }
  }

  method WriteClient(cmd: string, ghost done: seq<seq<string>>, client: Client, args: seq<string>) returns (inner: string)
    requires Read(cmd) == Some((done, ["exec"])) && !client.Terminal?
    ensures Read(inner) == Some((done, Exec(client, args)))
  {
    ArgIsReadBack(cmd, client.path);
    inner := cmd + (" " + Quote(client.path));
    ghost var words := ["exec", client.path];
    assert ["exec"] + [client.path] == words;
    if client.Claude? {
      if client.permissionMode != "" {
        WordsAreOrdinary();
        WordIsReadBack(inner, "--permission-mode");
        inner := inner + (" " + "--permission-mode");
        ArgIsReadBack(inner, client.permissionMode);
        inner := inner + (" " + Quote(client.permissionMode));
        assert words + ["--permission-mode"] + [client.permissionMode] == words + ["--permission-mode", client.permissionMode];
      } else {
        assert words + [] == words;
      }
    }
    ArgsAreReadBack(inner, args);
    inner := AppendArgs(inner, args);
  }

  /** The whole line: whatever the strings hold, the shell runs exactly the meant commands. */
  method LaunchLine(s: Session) returns (inner: string)
    ensures Read(inner) == Some((Before(s), Exec(s.client, s.args)))
  {
    inner := WriteEnvironment(s);
    ghost var done := [Exported("STARFLEET_SHIP_ID", s.shipId)] + ExportedIf(s.tier != "", "AGENT_TIER", s.tier)
                      + ExportedIf(s.supervisor != "", "AGENT_SUPERVISOR", s.supervisor) + ProjectCommands(s.project);
    inner := WriteConfig(inner, done, s.client);
    inner := WriteExec(inner, done + ConfigCommands(s.client), s.client, s.args);
  }
}

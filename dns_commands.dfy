/**
 * The non-interactive mode of dnsrouting/commands.go, which knows only
 * `goto` and `version`, and the command line and environment its
 * ExecuteScript hands to the platform shell.
 */
module DnsCommands {

  import opened Wrappers
  import opened HostEnv
  import opened ProcessState

  datatype Outcome = Outcome(code: int, table: Table)

  /**
   * execGoto: without a path, or when the directory cannot be entered,
   * exit 1 and no change; otherwise the new directory is recorded for
   * shell_<pid> with no old directory, so the history never grows.
   */
  function GotoIn(t: Table, args: seq<string>, h: Host): (r: Outcome)
    ensures args == [] || h.chdir(args[0]).None? ==> r == Outcome(1, t)
    ensures args != [] && h.chdir(args[0]).Some? ==>
      && r.code == 0
      && r.table == UpdateIn(t, ShellName(h.pid), h.chdir(args[0]).value, "", h.pid, h.now)
      && r.table[ShellName(h.pid)].currentDir == h.chdir(args[0]).value
      && r.table[ShellName(h.pid)].history
         == if ShellName(h.pid) in t then t[ShellName(h.pid)].history else []
  {
    if args == [] then Outcome(1, t)
    else match h.chdir(args[0])
      case None => Outcome(1, t)
      case Some(newDir) =>
        SaveKeepsHistory(t, ShellName(h.pid), newDir, h.pid, h.now);
        Outcome(0, UpdateIn(t, ShellName(h.pid), newDir, "", h.pid, h.now))
  }

  /** ExecuteCommand: no arguments is exit 0, `version` is exit 0, `goto` as above, anything else exit 1. */
  function Execute(t: Table, args: seq<string>, h: Host): (r: Outcome)
    ensures args == [] ==> r == Outcome(0, t)
    ensures args != [] && args[0] == "version" ==> r == Outcome(0, t)
    ensures args != [] && args[0] != "goto" && args[0] != "version" ==> r == Outcome(1, t)
    ensures args != [] && args[0] == "goto" ==> r == GotoIn(t, args[1..], h)
  {
    if args == [] then Outcome(0, t)
    else if args[0] == "goto" then GotoIn(t, args[1..], h)
    else if args[0] == "version" then Outcome(0, t)
    else Outcome(1, t)
  }

  method ExecuteCommand(state: State, args: seq<string>, h: Host) returns (code: int)
    modifies state
    ensures Outcome(code, state.processes) == Execute(old(state.processes), args, h)
  {
    if |args| == 0 {
      return 0;
    }
    var cmd := args[0];
    if cmd == "goto" {
      var cmdArgs := args[1..];
      if |cmdArgs| == 0 {
        return 1;
      }
      var moved := h.chdir(cmdArgs[0]);
      if moved.None? {
        return 1;
      }
      state.UpdateDirectory(ShellName(h.pid), moved.value, "", h.pid, h.now);
      return 0;
    } else if cmd == "version" {
      return 0;
    } else {
      return 1;
    }
  }

  /** The program ExecuteScript starts, with its arguments and environment. */
  datatype ShellCommand = ShellCommand(program: string, args: seq<string>, env: seq<string>)

  /** The shell and the first argument of ExecuteScript on each platform. */
  function ShellProgram(goos: string): string {
    if goos == "windows" then "cmd" else "sh"
  }

  function ShellFlag(goos: string): string {
    if goos == "windows" then "/C" else "-c"
  }

  /** The environment of the child: the parent's, then IPTP_SHELL=true and IPTP_PID=<pid>. */
  function ScriptEnv(environ: seq<string>, pid: int): seq<string> {
    environ + ["IPTP_SHELL=true", "IPTP_PID=" + Text.Decimal(pid)]
  }

  /**
   * ExecuteScript as written: nothing runs for an empty command line;
   * otherwise the first word is handed to `sh -c` (`cmd /C` on windows)
   * followed by the other words unchanged.
   */
  function ScriptFor(parts: seq<string>, goos: string, environ: seq<string>, pid: int): (r: Option<ShellCommand>)
    ensures parts == [] <==> r.None?
    ensures r.Some? ==>
      && r.value.program == ShellProgram(goos)
      && r.value.args == [ShellFlag(goos)] + parts
      && r.value.env == ScriptEnv(environ, pid)
  {
    if parts == [] then None
    else
      assert [ShellFlag(goos), parts[0]] + parts[1..] == [ShellFlag(goos)] + parts;
      Some(ShellCommand(ShellProgram(goos), [ShellFlag(goos), parts[0]] + parts[1..], ScriptEnv(environ, pid)))
  }

  /** The command line building of ExecuteScript, step by step. */
  method ScriptCommand(parts: seq<string>, goos: string, environ: seq<string>, pid: int)
    returns (r: Option<ShellCommand>)
    ensures r == ScriptFor(parts, goos, environ, pid)
  {
    if |parts| == 0 {
      return None;
    }
    var cmdName := parts[0];
    var cmdArgs := parts[1..];
    var shellCmd: string;
    var shellArgs: seq<string>;
    if goos == "windows" {
      shellCmd := "cmd";
      shellArgs := ["/C", cmdName];
    } else {
      shellCmd := "sh";
      shellArgs := ["-c", cmdName];
    }
    shellArgs := shellArgs + cmdArgs;
    var env := environ;
    env := env + ["IPTP_SHELL=true"];
    env := env + ["IPTP_PID=" + Text.Decimal(pid)];
    assert env == ScriptEnv(environ, pid);
    return Some(ShellCommand(shellCmd, shellArgs, env));
  }

  /**
   * The words `sh -c` executes: those of the one script argument after -c,
   * for a script of plain words (no quoting, no operators). Arguments after
   * the script are not executed; they only become the script's $0, $1, ...
   * (the `sh` utility of POSIX.1-2017, option -c).
   */
  function ShRuns(shellArgs: seq<string>): Option<seq<string>> {
    if |shellArgs| >= 2 && shellArgs[0] == "-c" then Some(Text.Fields(shellArgs[1])) else None
  }

  /** The words `cmd /C` executes: the rest of its command line, joined by spaces. */
  function CmdRuns(shellArgs: seq<string>): Option<seq<string>> {
    if |shellArgs| >= 1 && shellArgs[0] == "/C" then Some(Text.Fields(Text.Join(shellArgs[1..], " "))) else None
  }

  /** What the platform shell executes for the arguments ExecuteScript gives it. */
  function Executed(goos: string, shellArgs: seq<string>): Option<seq<string>> {
    if goos == "windows" then CmdRuns(shellArgs) else ShRuns(shellArgs)
  }

  /** The words of a command line as the shell splits them: non-empty, without spaces. */
  predicate Words(parts: seq<string>) {
    forall i :: 0 <= i < |parts| ==> parts[i] != "" && Text.NoSpace(parts[i])
  }

  /**
   * As written, outside windows only the first word runs: `ls -la` runs
   * `ls`, with "-la" as its $0. On windows every word runs.
   */
  lemma ShDropsArguments(parts: seq<string>, goos: string, environ: seq<string>, pid: int)
    requires Words(parts) && |parts| >= 2
    ensures var c := ScriptFor(parts, goos, environ, pid).value;
      && (goos != "windows" ==> Executed(goos, c.args) == Some([parts[0]]) && Executed(goos, c.args) != Some(parts))
      && (goos == "windows" ==> Executed(goos, c.args) == Some(parts))
  {
    var c := ScriptFor(parts, goos, environ, pid).value;
    if goos == "windows" {
      assert c.args[1..] == parts;
      Text.FieldsJoin(parts);
    } else {
      assert c.args[1] == parts[0];
      Text.FieldsOfWord(parts[0]);
    }
  }

  /**
   * ExecuteScript as evidently intended: the whole command line is the
   * script, so the platform shell executes every word, in order.
   */
  function FixedScript(parts: seq<string>, goos: string, environ: seq<string>, pid: int): (r: Option<ShellCommand>)
    requires Words(parts)
    ensures parts == [] <==> r.None?
    ensures r.Some? ==>
      && r.value.program == ShellProgram(goos)
      && Executed(goos, r.value.args) == Some(parts)
      && r.value.env == ScriptEnv(environ, pid)
  {
    if parts == [] then None
    else
      var args := [ShellFlag(goos), Text.Join(parts, " ")];
      Text.FieldsJoin(parts);
      assert args[1..] == [Text.Join(parts, " ")];
      assert Text.Join(args[1..], " ") == Text.Join(parts, " ");
      Some(ShellCommand(ShellProgram(goos), args, ScriptEnv(environ, pid)))
  }
}

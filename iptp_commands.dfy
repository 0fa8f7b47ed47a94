/**
 * The non-interactive mode of iptp-go/commands.go: `iptp COMMAND ARGS...`
 * returns an exit code and may change the process table. Execute says
 * what each command does to the table; the ExecuteCommand method performs
 * it on a State object, as the Go code does through its *State.
 */
module IptpCommands {

  import opened Wrappers
  import opened Text
  import opened HostEnv
  import opened ProcessState
  import opened Names

  datatype Outcome = Outcome(code: int, table: Table)

  /** The command words ExecuteCommand recognises. */
  const Known: set<string> :=
    {"goto", "name", "save", "list", "jump", "state", "help", "--help", "-h", "version", "--version", "-v"}

  /** The process a command acts for: $iptp_PROCESS, or shell_<pid> when that is unset. */
  function CurrentProcess(h: Host): (r: string)
    ensures r != ""
    ensures h.processVar != "" ==> r == h.processVar
    ensures h.processVar == "" ==> r == ShellName(h.pid)
  {
    if h.processVar != "" then h.processVar else ShellName(h.pid)
  }

  /**
   * goto PATH: without a path, or when the directory cannot be entered, exit
   * code 1 and no change; otherwise the process moves to the new directory,
   * remembering the one it left.
   */
  function GotoIn(t: Table, process: string, args: seq<string>, h: Host): (r: Outcome)
    ensures args == [] ==> r == Outcome(1, t)
    ensures args != [] && h.chdir(args[0]).None? ==> r == Outcome(1, t)
    ensures args != [] && h.chdir(args[0]).Some? ==>
      r == Outcome(0, UpdateIn(t, process, h.chdir(args[0]).value, h.cwd, h.pid, h.now))
  {
    if args == [] then Outcome(1, t)
    else match h.chdir(args[0])
      case None => Outcome(1, t)
      case Some(newDir) => Outcome(0, UpdateIn(t, process, newDir, h.cwd, h.pid, h.now))
  }

  /**
   * name [INTENTION...]: without words it only reports, exit 0; otherwise the
   * joined words are stored as the intention of the process that
   * ParseIntention names, at the current directory.
   */
  function NameIn(t: Table, args: seq<string>, h: Host): (r: Outcome)
    ensures r.code == 0
    ensures args == [] ==> r.table == t
    ensures args != [] ==>
      var j := Join(args, " ");
      var p := ParseIntention(j);
      && IsProcessName(p)
      && r.table == SetIn(t, p, j, h.cwd, h.pid, h.now)
      && r.table[p].intention == j
  {
    if args == [] then Outcome(0, t)
    else
      var intention := Join(args, " ");
      Outcome(0, SetIn(t, ParseIntention(intention), intention, h.cwd, h.pid, h.now))
  }

  /**
   * Execute: no arguments is exit 0; an unknown command is exit 1; jump and
   * state fail for processes not in the table; only goto, name and save
   * change the table.
   */
  function Execute(t: Table, args: seq<string>, h: Host): (r: Outcome)
    ensures r.code == 0 || r.code == 1
    ensures args == [] ==> r == Outcome(0, t)
    ensures args != [] && args[0] !in Known ==> r == Outcome(1, t)
    ensures args != [] && args[0] in {"help", "--help", "-h", "version", "--version", "-v", "list"} ==> r == Outcome(0, t)
    ensures args != [] && args[0] == "jump" ==> r == Outcome(if |args| >= 2 && args[1] in t then 0 else 1, t)
    ensures args != [] && args[0] == "state" ==> r == Outcome(if CurrentProcess(h) in t then 0 else 1, t)
    ensures args != [] && args[0] !in {"goto", "name", "save"} ==> r.table == t
  {
    if args == [] then Outcome(0, t)
    else
      var cmd := args[0];
      var cmdArgs := args[1..];
      var process := CurrentProcess(h);
      if cmd == "goto" then GotoIn(t, process, cmdArgs, h)
      else if cmd == "name" then NameIn(t, cmdArgs, h)
      else if cmd == "save" then Outcome(0, UpdateIn(t, process, h.cwd, "", h.pid, h.now))
      else if cmd == "list" then Outcome(0, t)
      else if cmd == "jump" then
        if cmdArgs == [] || cmdArgs[0] !in t then Outcome(1, t) else Outcome(0, t)
      else if cmd == "state" then
        if process !in t then Outcome(1, t) else Outcome(0, t)
      else if cmd in {"help", "--help", "-h", "version", "--version", "-v"} then Outcome(0, t)
      else Outcome(1, t)
  }

  /** save records the current directory but never grows the history. */
  lemma SaveKeepsHistoryLength(t: Table, h: Host)
    ensures var r := Execute(t, ["save"], h);
      var p := CurrentProcess(h);
      && r.code == 0 && p in r.table && r.table[p].currentDir == h.cwd
      && r.table[p].history == (if p in t then t[p].history else [])
  {
    SaveKeepsHistory(t, CurrentProcess(h), h.cwd, h.pid, h.now);
  }

  /**
   * A successful goto away from a known directory can be undone: popping the
   * history of the process gives back the directory it left.
   */
  lemma GotoThenPop(t: Table, path: string, h: Host)
    requires CurrentProcess(h) in t
    requires h.chdir(path).Some? && h.cwd != "" && h.cwd != h.chdir(path).value
    ensures var r := Execute(t, ["goto", path], h);
      var back := PopIn(r.table, CurrentProcess(h));
      && r.code == 0
      && back.ok && back.dir == h.cwd
      && back.table[CurrentProcess(h)].history == t[CurrentProcess(h)].history
  {
    assert ["goto", path][1..] == [path];
    UpdateThenPop(t, CurrentProcess(h), h.chdir(path).value, h.cwd, h.pid, h.now);
  }

  /**
   * joinArgs: the arguments separated by single spaces, built up one
   * argument at a time.
   */
  method JoinArgs(args: seq<string>) returns (result: string)
    ensures result == Join(args, " ")
  {
    result := "";
    var i := 0;
    while i < |args|
      invariant 0 <= i <= |args|
      invariant result == Join(args[..i], " ")
    {
      if i > 0 {
        result := result + " ";
      }
      JoinSnoc(args[..i], args[i]);
      assert args[..i + 1] == args[..i] + [args[i]];
      result := result + args[i];
      i := i + 1;
    }
    assert args[..|args|] == args;
  }

  /** Appending one more argument to a join: a space, then the argument (none before the first). */
  lemma {:induction false} JoinSnoc(parts: seq<string>, last: string)
    ensures Join(parts + [last], " ") == if parts == [] then last else Join(parts, " ") + " " + last
    decreases |parts|
  {
    if |parts| > 1 {
      assert (parts + [last])[1..] == parts[1..] + [last];
      JoinSnoc(parts[1..], last);
    } else if |parts| == 1 {
      assert (parts + [last])[1..] == [last];
    }
  }

  /** Words without spaces survive joinArgs: splitting the joined text on spaces gives them back. */
  lemma JoinArgsRoundTrip(args: seq<string>)
    requires args != []
    requires forall i :: 0 <= i < |args| ==> ' ' !in args[i]
    ensures Split(Join(args, " "), ' ') == args
  {
    SplitJoin(args, ' ');
  }

  /**
   * ExecuteCommand on a State: performs Execute, delegating the table
   * changes to the State's own mutators. Persisting the state to its file is
   * not modelled.
   */
  method ExecuteCommand(state: State, args: seq<string>, h: Host) returns (code: int)
    modifies state
    ensures Outcome(code, state.processes) == Execute(old(state.processes), args, h)
  {
    if |args| == 0 {
      return 0;
    }
    var cmd := args[0];
    var cmdArgs := args[1..];
    var process := CurrentProcess(h);
    if cmd == "goto" {
      if |cmdArgs| == 0 {
        return 1;
      }
      var moved := h.chdir(cmdArgs[0]);
      if moved.None? {
        return 1;
      }
      state.UpdateDirectory(process, moved.value, h.cwd, h.pid, h.now);
      return 0;
    } else if cmd == "name" {
      if |cmdArgs| == 0 {
        return 0;
      }
      var intention := JoinArgs(cmdArgs);
      var processName := ParseIntention(intention);
      state.SetProcess(processName, intention, h.cwd, h.pid, h.now);
      return 0;
    } else if cmd == "save" {
      state.UpdateDirectory(process, h.cwd, "", h.pid, h.now);
      return 0;
    } else if cmd == "list" {
      return 0;
    } else if cmd == "jump" {
      if |cmdArgs| == 0 {
        return 1;
      }
      var proc := state.GetProcess(cmdArgs[0]);
      return if proc.None? then 1 else 0;
    } else if cmd == "state" {
      var proc := state.GetProcess(process);
      return if proc.None? then 1 else 0;
    } else if cmd in {"help", "--help", "-h", "version", "--version", "-v"} {
      return 0;
    } else {
      return 1;
    }
  }
}

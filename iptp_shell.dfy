/**
 * The Shell object of iptp-go/shell.go. Its fields are updated in place by
 * the commands, each of which does to the shell what the matching Step
 * function of the Navigation module says. The hotspot shell reuses this
 * object for the commands the two shells share.
 */
module IptpShell {

  import opened Wrappers
  import opened Text
  import opened Paths
  import opened ProcessState
  import opened Names
  import opened Navigation
  import HostEnv
  import Exec

  /** The package-level iptpCounter, which numbers the shells of one program. */
  class ShellCounter {
    var value: int

    constructor ()
      ensures value == 0
    {
      value := 0;
    }
  }

  class Shell {
    const state: State
    var currentProcess: string
    var displayName: string
    var running: bool
    /** What os.Getwd returns; "" when it fails. */
    var cwd: string
    /** The lines standard input has still to deliver. */
    var input: seq<string>

    function View(): Nav
      reads this, state
    {
      Nav(state.processes, currentProcess, displayName, running, cwd, input)
    }

    /**
     * NewShell: the shell acts for shell_<pid>, shows itself as IPTP-<n>
     * where n is the counter after its increment, and is running.
     */
    constructor (state: State, counter: ShellCounter, pid: int, cwd: string, input: seq<string>)
      modifies counter
      ensures this.state == state && counter.value == old(counter.value) + 1
      ensures View() == Nav(state.processes, HostEnv.ShellName(pid), "IPTP-" + Decimal(counter.value), true, cwd, input)
    {
      counter.value := counter.value + 1;
      this.state := state;
      currentProcess := HostEnv.ShellName(pid);
      displayName := "IPTP-" + Decimal(counter.value);
      running := true;
      this.cwd := cwd;
      this.input := input;
    }

    /** reader.ReadString('\n'): the next line, or "" at the end of the input. */
    method ReadString() returns (line: string)
      modifies this
      ensures Read(line, input) == ReadLine(old(input))
      ensures currentProcess == old(currentProcess) && displayName == old(displayName)
      ensures running == old(running) && cwd == old(cwd)
    {
      if input == [] {
        return "";
      }
      line := input[0];
      input := input[1..];
    }

    method CmdGoto(args: seq<string>, w: World)
      modifies this, state
      ensures View() == GotoStep(old(View()), args, w)
    {
      var a := args;
      if |a| == 0 {
        if w.home.None? {
          return;
        }
        a := [w.home.value];
      }
      var path := a[0];
      if HasPrefix(path, "~") {
        if w.home.Some? {
          if path == "~" {
            path := w.home.value;
          } else {
            path := PathJoin(w.home.value, path[2..]);
          }
        }
      }
      assert path == ExpandTilde(if args == [] then w.home.value else args[0], w.home);
      if Contains(path, "*") {
        var matched := w.fuzzy(path);
        if matched.Err? {
          return;
        }
        if matched.value == "" {
          return;
        }
        path := matched.value;
      }
      assert GotoTarget(args, w) == Some(path);
      var oldDir := cwd;
      var moved := w.chdir(cwd, path);
      if moved.None? {
        return;
      }
      cwd := moved.value;
      state.UpdateDirectory(currentProcess, moved.value, oldDir, w.pid, w.now);
    }

    method CmdName(args: seq<string>, w: World)
      modifies this, state
      ensures View() == NameStep(old(View()), args, w)
    {
      if |args| == 0 {
        return;
      }
      ghost var before := View();
      var intention := Join(args, " ");
      var processName := ParseIntention(intention);
      currentProcess := processName;
      displayName := processName;
      state.SetProcess(processName, intention, cwd, w.pid, w.now);
      ghost var after := before.(process := processName, display := processName,
                                 table := SetIn(before.table, processName, intention, before.cwd, w.pid, w.now));
      assert NameStep(before, args, w) == after;
      assert View() == after;
    }

    method CmdSave(w: World)
      modifies state
      ensures View() == SaveStep(old(View()), w)
    {
      state.UpdateDirectory(currentProcess, cwd, "", w.pid, w.now);
    }

    method CmdJump(args: seq<string>, w: World)
      modifies this, state
      ensures View() == JumpStep(old(View()), args, w)
    {
      if |args| == 0 {
        return;
      }
      var targetProcess := args[0];
      var proc := state.GetProcess(targetProcess);
      if proc.None? {
        return;
      }
      var oldDir := cwd;
      var moved := w.chdir(cwd, proc.value.currentDir);
      if moved.None? {
        return;
      }
      currentProcess := targetProcess;
      displayName := targetProcess;
      cwd := moved.value;
      state.UpdateDirectory(currentProcess, moved.value, oldDir, w.pid, w.now);
    }

    method CmdBack(w: World)
      modifies this, state
      ensures View() == BackStep(old(View()), w)
    {
      var prevDir, ok := state.PopHistory(currentProcess);
      if !ok {
        return;
      }
      var moved := w.chdir(cwd, prevDir);
      if moved.None? {
        return;
      }
      cwd := moved.value;
      state.UpdateDirectory(currentProcess, cwd, "", w.pid, w.now);
    }

    method CmdGetMeThere(w: World)
      modifies this, state
      ensures View() == GetMeThereStep(old(View()), w)
    {
      ghost var s := View();
      var dirName := ReadString();
      ghost var first := ReadLine(s.input);
      assert first == Read(dirName, input);
      dirName := TrimSpace(dirName);
      if dirName == "" {
        return;
      }
      var currentDir := cwd;
      var found := w.find(dirName, currentDir, 3, 10);
      if |found.dirs| == 0 {
        var homeDir := HomeOrEmpty(w);
        found := w.find(dirName, homeDir, 4, 20);
      }
      assert found == Search(dirName, s, w);
      if found.err.Some? || |found.dirs| == 0 {
        return;
      }
      var choice := ReadString();
      ghost var second := ReadLine(first.rest);
      assert second == Read(choice, input);
      choice := TrimSpace(choice);
      ghost var s2 := View();
      assert s2 == s.(input := second.rest);
      ghost var t := s.(input := first.rest);
      assert GetMeThereStep(s, w) == AskStep(t, dirName, w);
      assert AskStep(t, dirName, w) == ChooseStep(t, found, w);
      assert ChooseStep(t, found, w) == PickStep(s2, found.dirs, Select(choice, |found.dirs|), w);
      EnterSelection(found.dirs, choice, w);
    }

    /** The end of cmdGetMeThere: checks the choice and enters the directory picked. */
    method EnterSelection(dirs: seq<string>, choice: string, w: World)
      modifies this, state
      ensures View() == PickStep(old(View()), dirs, Select(choice, |dirs|), w)
    {
      if choice == "q" || choice == "Q" {
        return;
      }
      var scanned := ScanInt(choice);
      if scanned.None? || scanned.value < 1 || scanned.value > |dirs| {
        return;
      }
      var selectedDir := dirs[scanned.value - 1];
      var oldDir := cwd;
      var moved := w.chdir(cwd, selectedDir);
      if moved.None? {
        return;
      }
      cwd := moved.value;
      state.UpdateDirectory(currentProcess, cwd, oldDir, w.pid, w.now);
    }

    /**
     * cmdExec: hands the fields of the line to ExecuteScript of exec.go and
     * returns the command it starts; the command's own effects are not part
     * of this model.
     */
    method CmdExec(parts: seq<string>, environ: seq<string>) returns (launched: Option<Exec.Command>)
      ensures parts == [] <==> launched.None?
      ensures launched.Some? ==> [launched.value.program] + launched.value.args == parts
      ensures launched.Some? ==>
        launched.value.env == environ + ["GOBASH_SHELL=1"] + (if cwd != "" then ["GOBASH_CWD=" + cwd] else [])
    {
      launched := Exec.ScriptCommand(parts, environ, if cwd != "" then Some(cwd) else None);
    }

    /**
     * executeCommand: performs Step on the shell; for a word that is no
     * builtin it returns the external command that was started.
     */
    method ExecuteCommand(line: string, w: World, environ: seq<string>) returns (launched: Option<Exec.Command>)
      modifies this, state
      ensures View() == Step(old(View()), line, w, false)
      ensures launched.Some? <==> ParseCommand(line, false).External?
      ensures launched.Some? ==> [launched.value.program] + launched.value.args == Fields(line)
    {
      launched := Dispatch(ParseCommand(line, false), w, environ);
    }

    /** The switch of executeCommand on the command word. */
    method Dispatch(c: Cmd, w: World, environ: seq<string>) returns (launched: Option<Exec.Command>)
      modifies this, state
      ensures View() == Apply(old(View()), c, w)
      ensures launched.Some? <==> c.External? && c.parts != []
      ensures launched.Some? ==> [launched.value.program] + launched.value.args == c.parts
    {
      launched := None;
      match c
      case Goto(args) => CmdGoto(args, w);
      case Name(args) => CmdName(args, w);
      case GetMeThere => CmdGetMeThere(w);
      case Save => CmdSave(w);
      case Jump(args) => CmdJump(args, w);
      case Back => CmdBack(w);
      case Exit => running := false;
      case External(parts) => launched := CmdExec(parts, environ);
      // Blank lines do nothing; list, state, help and pwd only print.
      case _ =>
    }

    /**
     * Run: records the shell as "Working in <name>" at the current
     * directory, then executes the non-blank lines until `exit` or the end
     * of the input.
     */
    method Run(w: World, environ: seq<string>)
      modifies this, state
      ensures View() == Session(old(View()), w)
      ensures !running || input == []
    {
      state.SetProcess(currentProcess, "Working in " + currentProcess, cwd, w.pid, w.now);
      while running
        invariant RunFrom(View(), w) == Session(old(View()), w)
        decreases |input|
      {
        if input == [] {
          break;
        }
        var line := ReadString();
        line := TrimSpace(line);
        if line == "" {
          continue;
        }
        var launched := ExecuteCommand(line, w, environ);
      }
    }
  }
}

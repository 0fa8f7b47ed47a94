/**
 * The process table of iptp-go/guide/xplainstate.go: a map from process name
 * to Process, each with a stack of previously visited directories. The pure
 * functions SetIn, UpdateIn and PopIn say what each mutator does to the map;
 * the State class updates its map in place, as the Go methods do.
 */
module ProcessState {

  import opened Wrappers
  import opened Text

  /** A trivalent truth condition: TV is "Y", "N" or "U". */
  datatype Pulse = Pulse(name: string, tv: string, response: string)

  datatype Process = Process(
    intention: string,
    currentDir: string,
    history: seq<string>,
    pid: int,
    timestamp: string,
    pulses: seq<Pulse>)

  type Table = map<string, Process>

  /** The two pulses every stored process carries: its name and its saved directory. */
  function PulsesFor(name: string, dir: string): seq<Pulse> {
    [Pulse("process named", "Y", name), Pulse("directory saved", "Y", dir)]
  }

  /** The entry `dir` pushes onto the history when leaving `oldDir` for `newDir`. */
  function Pushed(oldDir: string, newDir: string): seq<string> {
    if oldDir != "" && oldDir != newDir then [oldDir] else []
  }

  /**
   * SetProcess on a table: `name` now holds the given intention and
   * directory with exactly the two pulses, keeps the history it had (none
   * if it is new), and no other entry changes.
   */
  function SetIn(t: Table, name: string, intention: string, dir: string, pid: int, now: string): (r: Table)
    ensures r.Keys == t.Keys + {name}
    ensures r[name].intention == intention && r[name].currentDir == dir
    ensures r[name].pid == pid && r[name].timestamp == now && r[name].pulses == PulsesFor(name, dir)
    ensures r[name].history == if name in t then t[name].history else []
    ensures forall k :: k in t && k != name ==> r[k] == t[k]
  {
    var history := if name in t then t[name].history else [];
    t[name := Process(intention, dir, history, pid, now, PulsesFor(name, dir))]
  }

  /**
   * UpdateDirectory on a table. An unknown name is created as by SetIn with
   * the intention "Working in <name>". A known name moves to `newDir`,
   * pushing `oldDir` when it is non-empty and differs from `newDir`, and
   * keeps its intention and pid. No other entry changes.
   */
  function UpdateIn(t: Table, name: string, newDir: string, oldDir: string, pid: int, now: string): (r: Table)
    ensures name !in t ==> r == SetIn(t, name, "Working in " + name, newDir, pid, now)
    ensures r.Keys == t.Keys + {name}
    ensures r[name].currentDir == newDir && r[name].pulses == PulsesFor(name, newDir) && r[name].timestamp == now
    ensures name in t ==>
      && r[name].history == t[name].history + Pushed(oldDir, newDir)
      && r[name].intention == t[name].intention
      && r[name].pid == t[name].pid
    ensures forall k :: k in t && k != name ==> r[k] == t[k]
  {
    if name !in t then SetIn(t, name, "Working in " + name, newDir, pid, now)
    else
      var p := t[name];
      var history := p.history + Pushed(oldDir, newDir);
      t[name := p.(history := history, currentDir := newDir, timestamp := now, pulses := PulsesFor(name, newDir))]
  }

  /** The outcome of PopHistory on a table: the new table, the popped directory, and whether one was popped. */
  datatype Popped = Popped(table: Table, dir: string, ok: bool)

  /**
   * PopHistory on a table: with an unknown name or an empty history nothing
   * changes and ("", false) is returned; otherwise the last history entry is
   * returned and removed, and nothing else changes.
   */
  function PopIn(t: Table, name: string): (r: Popped)
    ensures !(name in t && t[name].history != []) ==> r == Popped(t, "", false)
    ensures name in t && t[name].history != [] ==>
      && r.ok
      && r.table.Keys == t.Keys
      && t[name].history == r.table[name].history + [r.dir]
      && r.table[name] == t[name].(history := r.table[name].history)
      && forall k :: k in t && k != name ==> r.table[k] == t[k]
  {
    if name !in t || |t[name].history| == 0 then Popped(t, "", false)
    else
      var p := t[name];
      var last := |p.history| - 1;
      Popped(t[name := p.(history := p.history[..last])], p.history[last], true)
  }

  /**
   * Moving away from a directory and then popping the history gives that
   * directory back and restores the history the process had before the move.
   */
  lemma {:induction false} UpdateThenPop(t: Table, name: string, newDir: string, oldDir: string, pid: int, now: string)
    requires name in t
    requires oldDir != "" && oldDir != newDir
    ensures var p := PopIn(UpdateIn(t, name, newDir, oldDir, pid, now), name);
      && p.ok && p.dir == oldDir
      && p.table[name].history == t[name].history
      && p.table[name].currentDir == newDir
  {
    var u := UpdateIn(t, name, newDir, oldDir, pid, now);
    assert u[name].history == t[name].history + [oldDir];
    var p := PopIn(u, name);
    assert u[name].history == p.table[name].history + [p.dir];
    assert |p.table[name].history| == |t[name].history|;
    assert p.dir == (u[name].history)[|u[name].history| - 1];
    assert p.table[name].history == u[name].history[..|t[name].history|];
  }

  /** An update with an empty old directory, as `save` and `back` issue, never extends the history. */
  lemma SaveKeepsHistory(t: Table, name: string, dir: string, pid: int, now: string)
    ensures var u := UpdateIn(t, name, dir, "", pid, now);
      u[name].history == if name in t then t[name].history else []
  {
  }

  /** A pop leaves one fewer entry, so repeated pops stop after |history| steps. */
  lemma PopShrinks(t: Table, name: string)
    requires name in t && t[name].history != []
    ensures var p := PopIn(t, name); name in p.table && |p.table[name].history| == |t[name].history| - 1
  {
  }

  class State {
    var processes: Table

    /** NewState: no processes. */
    constructor ()
      ensures processes == map[]
    {
      processes := map[];
    }

    method SetProcess(name: string, intention: string, currentDir: string, pid: int, now: string)
      modifies this
      ensures processes == SetIn(old(processes), name, intention, currentDir, pid, now)
    {
      var history: seq<string> := [];
      if name in processes {
        history := processes[name].history;
      }
      var process := Process(intention, currentDir, history, pid, now, PulsesFor(name, currentDir));
      processes := processes[name := process];
    }

    method UpdateDirectory(processName: string, newDir: string, oldDir: string, pid: int, now: string)
      modifies this
      ensures processes == UpdateIn(old(processes), processName, newDir, oldDir, pid, now)
    {
      if processName !in processes {
        SetProcess(processName, "Working in " + processName, newDir, pid, now);
        return;
      }
      var process := processes[processName];
      if oldDir != "" && oldDir != newDir {
        process := process.(history := process.history + [oldDir]);
      } else {
        assert process.history + Pushed(oldDir, newDir) == process.history;
      }
      process := process.(currentDir := newDir, timestamp := now, pulses := PulsesFor(processName, newDir));
      processes := processes[processName := process];
    }

    /** GetProcess: the stored entry, if there is one. */
    function GetProcess(name: string): (r: Option<Process>)
      reads this
      ensures r.Some? <==> name in processes
      ensures r.Some? ==> r.value == processes[name]
    {
      if name in processes then Some(processes[name]) else None
    }

    /** ListProcesses: every stored name exactly once, in an unspecified order. */
    method ListProcesses() returns (names: seq<string>)
      ensures forall n :: n in names <==> n in processes
      ensures Distinct(names) && |names| == |processes|
    {
      names := [];
      var rest := processes.Keys;
      while rest != {}
        invariant rest <= processes.Keys
        invariant forall n :: n in names <==> n in processes.Keys - rest
        invariant Distinct(names)
        invariant |names| + |rest| == |processes.Keys|
        decreases |rest|
      {
        var name :| name in rest;
        names := names + [name];
        rest := rest - {name};
      }
    }

    method PopHistory(processName: string) returns (dir: string, ok: bool)
      modifies this
      ensures Popped(processes, dir, ok) == PopIn(old(processes), processName)
    {
      if processName !in processes || |processes[processName].history| == 0 {
        return "", false;
      }
      var process := processes[processName];
      var lastIdx := |process.history| - 1;
      var lastDir := process.history[lastIdx];
      process := process.(history := process.history[..lastIdx]);
      processes := processes[processName := process];
      return lastDir, true;
    }
  }
}

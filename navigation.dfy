/**
 * The interactive shell of iptp-go/shell.go: how a line becomes a command,
 * and what each navigation command does to the shell's state. The shell of
 * hotspotdnsrouting/shell.go has the same fields, the same Run loop and the
 * same navigation commands, line for line; it adds `dns` and `hotspot`,
 * which the HotspotShell module models.
 *
 * The state of a shell is a Nav value: the process table, the names it
 * goes by, whether it is still running, the working directory, and the
 * lines still to be read. The Step functions say what each command makes
 * of it; the Shell classes perform them in place.
 */
module Navigation {

  import opened Wrappers
  import opened Text
  import opened Paths
  import opened ProcessState
  import opened Names

  /** FindDirectoriesFrom's answer: the directories found, and an error if the walk failed. */
  datatype Found = Found(dirs: seq<string>, err: Option<string>)

  /**
   * What the shell asks the operating system, as values: the home directory
   * (None when os.UserHomeDir fails), the process id and clock that
   * SetProcess and UpdateDirectory record, the outcome of os.Chdir followed
   * by os.Getwd from a given directory (None when the change fails), and the
   * directory searches of utils.go, which are not part of this model.
   */
  datatype World = World(
    home: Option<string>,
    pid: int,
    now: string,
    chdir: (string, string) -> Option<string>,
    fuzzy: string -> Result<string, string>,
    find: (string, string, nat, nat) -> Found)

  /** `home, _ := os.UserHomeDir()`: the empty string when it fails. */
  function HomeOrEmpty(w: World): string {
    if w.home.Some? then w.home.value else ""
  }

  /**
   * The shell's state: the process table, currentProcess, displayName, the
   * running flag, what os.Getwd returns ("" when it fails), and the input
   * lines not read yet.
   */
  datatype Nav = Nav(table: Table, process: string, display: string, running: bool, cwd: string, input: seq<string>)

  /** `rest` is what is left of `input` after reading some lines from its front. */
  predicate IsSuffix(rest: seq<string>, input: seq<string>) {
    |rest| <= |input| && rest == input[|input| - |rest|..]
  }

  lemma SuffixTransitive(a: seq<string>, b: seq<string>, c: seq<string>)
    requires IsSuffix(a, b) && IsSuffix(b, c)
    ensures IsSuffix(a, c)
  {
    assert c[|c| - |b|..][|b| - |a|..] == c[|c| - |a|..];
  }

  /** A line read with ReadString, and what is left; at the end of the input the line is empty. */
  datatype Read = Read(line: string, rest: seq<string>)

  function ReadLine(input: seq<string>): (r: Read)
    ensures IsSuffix(r.rest, input)
    ensures input != [] ==> r == Read(input[0], input[1..])
  {
    if input == [] then Read("", []) else Read(input[0], input[1..])
  }

  // ---------------------------------------------------------------------
  // Dispatch
  // ---------------------------------------------------------------------

  datatype Cmd =
    | Blank
    | Goto(args: seq<string>)
    | Name(args: seq<string>)
    | GetMeThere
    | Save
    | List
    | Jump(args: seq<string>)
    | Back
    | ShowState
    | Help
    | Pwd
    | Exit
    | DnsCmd(args: seq<string>)
    | HotspotCmd(args: seq<string>)
    | External(parts: seq<string>)

  /** The command words of the switch in executeCommand; `dns` and `hotspot` only in the shell that has them. */
  function Builtins(network: bool): set<string> {
    {"cd", "name", "goto", "getmethere", "save", "list", "jump", "back", "state", "help", "pwd", "exit", "quit"}
    + (if network then {"dns", "hotspot"} else {})
  }

  /**
   * executeCommand: the first field of the line selects the command and the
   * other fields are its arguments; a word that is no builtin runs as an
   * external command with all the fields.
   */
  function ParseCommand(line: string, network: bool): (c: Cmd)
    ensures Fields(line) == [] <==> c == Blank
    ensures c.External? <==> Fields(line) != [] && Fields(line)[0] !in Builtins(network)
    ensures c.External? ==> c.parts == Fields(line)
    ensures !network ==> !c.DnsCmd? && !c.HotspotCmd?
  {
    var parts := Fields(line);
    if parts == [] then Blank
    else if network && parts[0] == "dns" then DnsCmd(parts[1..])
    else if network && parts[0] == "hotspot" then HotspotCmd(parts[1..])
    else Builtin(parts)
  }

  /** The cases of the switch that both shells have; any other word runs externally. */
  function Builtin(parts: seq<string>): (c: Cmd)
    requires parts != []
    ensures c.External? <==> parts[0] !in Builtins(false)
    ensures c.External? ==> c.parts == parts
    ensures parts[0] in {"cd", "goto"} ==> c == Goto(parts[1..])
    ensures parts[0] in {"exit", "quit"} ==> c == Exit
    ensures !c.Blank? && !c.DnsCmd? && !c.HotspotCmd?
  {
    var cmd := parts[0];
    var args := parts[1..];
    if cmd == "cd" || cmd == "goto" then Goto(args)
    else if cmd == "name" then Name(args)
    else if cmd == "getmethere" then GetMeThere
    else if cmd == "save" then Save
    else if cmd == "list" then List
    else if cmd == "jump" then Jump(args)
    else if cmd == "back" then Back
    else if cmd == "state" then ShowState
    else if cmd == "help" then Help
    else if cmd == "pwd" then Pwd
    else if cmd == "exit" || cmd == "quit" then Exit
    else External(parts)
  }

  // ---------------------------------------------------------------------
  // goto and cd
  // ---------------------------------------------------------------------

  /**
   * The home expansion of cmdGoto: only when the home directory is known,
   * "~" becomes it and any other path starting with '~' becomes the home
   * directory joined with what follows the first two characters.
   */
  function ExpandTilde(path: string, home: Option<string>): (r: string)
    ensures !HasPrefix(path, "~") || home.None? ==> r == path
  {
    if HasPrefix(path, "~") && home.Some? then
      if path == "~" then home.value else PathJoin(home.value, path[2..])
    else path
  }

  /** "~/rest" is the home directory joined with rest. */
  lemma TildeSlash(home: string, rest: string)
    ensures ExpandTilde("~/" + rest, Some(home)) == PathJoin(home, rest)
  {
    assert ("~/" + rest)[2..] == rest;
  }

  /**
   * The character after '~' is dropped whatever it is: "~x/a" expands like
   * "~//a", and "~doc" to the home directory's "oc". Go drops one byte, so
   * for a non-ASCII character this holds only of its first byte.
   */
  lemma TildeDropsNextChar(home: string, c: char, rest: string)
    ensures ExpandTilde("~" + [c] + rest, Some(home)) == ExpandTilde("~/" + rest, Some(home))
    ensures ExpandTilde("~" + [c] + rest, Some(home)) == PathJoin(home, rest)
  {
    assert ("~" + [c] + rest)[2..] == rest;
    assert ("~/" + rest)[2..] == rest;
    assert ("~" + [c] + rest)[..1] == "~";
  }

  /**
   * The directory cmdGoto changes to: the first argument, or the home
   * directory without one; then the '~' expansion; then, for a path with a
   * '*', the fuzzy match. None when cmdGoto gives up before changing
   * directory.
   */
  function GotoTarget(args: seq<string>, w: World): (r: Option<string>)
    ensures args == [] && w.home.None? ==> r.None?
  {
    if args == [] && w.home.None? then None
    else
      var path := ExpandTilde(if args == [] then w.home.value else args[0], w.home);
      if Contains(path, "*") then
        match w.fuzzy(path)
        case Err(_) => None
        case Ok(m) => if m == "" then None else Some(m)
      else Some(path)
  }

  /** Without arguments cmdGoto goes to the home directory, when it is known. */
  lemma GotoHomeByDefault(w: World)
    requires w.home.Some? && !HasPrefix(w.home.value, "~") && !Contains(w.home.value, "*")
    ensures GotoTarget([], w) == Some(w.home.value)
  {
  }

  /** A wildcard path goes wherever the fuzzy search says, and nowhere when it finds nothing or fails. */
  lemma GotoWildcard(path: string, w: World)
    requires !HasPrefix(path, "~") && Contains(path, "*")
    ensures w.fuzzy(path).Err? ==> GotoTarget([path], w).None?
    ensures w.fuzzy(path) == Ok("") ==> GotoTarget([path], w).None?
    ensures w.fuzzy(path).Ok? && w.fuzzy(path).value != "" ==> GotoTarget([path], w) == Some(w.fuzzy(path).value)
  {
  }

  /**
   * cmdGoto: when a target is found and the directory can be entered, the
   * process moves there and remembers the directory it left; otherwise
   * nothing changes. The names, the running flag and the input never do.
   */
  function GotoStep(s: Nav, args: seq<string>, w: World): (r: Nav)
    ensures r.process == s.process && r.display == s.display && r.running == s.running && r.input == s.input
    ensures GotoTarget(args, w).None? ==> r == s
    ensures GotoTarget(args, w).Some? && w.chdir(s.cwd, GotoTarget(args, w).value).None? ==> r == s
    ensures GotoTarget(args, w).Some? && w.chdir(s.cwd, GotoTarget(args, w).value).Some? ==>
      var d := w.chdir(s.cwd, GotoTarget(args, w).value).value;
      && r.cwd == d
      && r.table == UpdateIn(s.table, s.process, d, s.cwd, w.pid, w.now)
      && r.table[s.process].currentDir == d
  {
    match GotoTarget(args, w)
    case None => s
    case Some(path) =>
      match w.chdir(s.cwd, path)
      case None => s
      case Some(newDir) => s.(table := UpdateIn(s.table, s.process, newDir, s.cwd, w.pid, w.now), cwd := newDir)
  }

  // ---------------------------------------------------------------------
  // name, save, jump, back
  // ---------------------------------------------------------------------

  /**
   * cmdName: without arguments it only reports. Otherwise the joined words
   * are the intention, and both the process name and the display name
   * become ParseIntention of it, which is stored with the intention at the
   * current directory.
   */
  function NameStep(s: Nav, args: seq<string>, w: World): (r: Nav)
    ensures args == [] ==> r == s
    ensures args != [] ==>
      var intention := Join(args, " ");
      && r.process == ParseIntention(intention) && r.display == r.process
      && IsProcessName(r.process)
      && r.table == SetIn(s.table, r.process, intention, s.cwd, w.pid, w.now)
      && r.table[r.process].intention == intention
      && r.cwd == s.cwd && r.running == s.running && r.input == s.input
  {
    if args == [] then s
    else
      var intention := Join(args, " ");
      var p := ParseIntention(intention);
      s.(process := p, display := p, table := SetIn(s.table, p, intention, s.cwd, w.pid, w.now))
  }

  /** cmdSave: the current directory is recorded for the process, with no directory pushed on its history. */
  function SaveStep(s: Nav, w: World): (r: Nav)
    ensures r.table == UpdateIn(s.table, s.process, s.cwd, "", w.pid, w.now)
    ensures r.table[s.process].history == (if s.process in s.table then s.table[s.process].history else [])
    ensures r.(table := s.table) == s
  {
    SaveKeepsHistory(s.table, s.process, s.cwd, w.pid, w.now);
    s.(table := UpdateIn(s.table, s.process, s.cwd, "", w.pid, w.now))
  }

  /**
   * cmdJump: with no name, a name not in the table, or a saved directory
   * that cannot be entered, nothing changes and the names stay. Otherwise
   * the shell takes the target's name for both names, moves to its saved
   * directory, and the target remembers the directory the shell left.
   */
  function JumpStep(s: Nav, args: seq<string>, w: World): (r: Nav)
    ensures args == [] || args[0] !in s.table ==> r == s
    ensures args != [] && args[0] in s.table && w.chdir(s.cwd, s.table[args[0]].currentDir).None? ==> r == s
    ensures args != [] && args[0] in s.table && w.chdir(s.cwd, s.table[args[0]].currentDir).Some? ==>
      var d := w.chdir(s.cwd, s.table[args[0]].currentDir).value;
      && r.process == args[0] && r.display == args[0] && r.cwd == d
      && r.table == UpdateIn(s.table, args[0], d, s.cwd, w.pid, w.now)
      && r.running == s.running && r.input == s.input
  {
    if args == [] || args[0] !in s.table then s
    else
      var target := args[0];
      match w.chdir(s.cwd, s.table[target].currentDir)
      case None => s
      case Some(newDir) =>
        s.(process := target, display := target, cwd := newDir,
           table := UpdateIn(s.table, target, newDir, s.cwd, w.pid, w.now))
  }

  /**
   * cmdBack: pops the last directory of the process's history and changes to
   * it, recording it without pushing anything. The pop happens before the
   * change of directory, so when that fails the entry is gone all the same.
   */
  function BackStep(s: Nav, w: World): (r: Nav)
    ensures r.process == s.process && r.display == s.display && r.running == s.running && r.input == s.input
    ensures !PopIn(s.table, s.process).ok ==> r == s
  {
    var popped := PopIn(s.table, s.process);
    if !popped.ok then s
    else
      match w.chdir(s.cwd, popped.dir)
      case None => s.(table := popped.table)
      case Some(d) => s.(table := UpdateIn(popped.table, s.process, d, "", w.pid, w.now), cwd := d)
  }

  /** A failed `back` still drops the history entry it was going to use. */
  lemma BackFailureStillPops(s: Nav, w: World)
    requires s.process in s.table && s.table[s.process].history != []
    requires w.chdir(s.cwd, s.table[s.process].history[|s.table[s.process].history| - 1]).None?
    ensures BackStep(s, w).cwd == s.cwd
    ensures |BackStep(s, w).table[s.process].history| == |s.table[s.process].history| - 1
  {
    PopShrinks(s.table, s.process);
  }

  /**
   * `goto` then `back` returns to where the shell was: the directory left is
   * the one popped, and, when it can be entered again, the shell is back in
   * it with the history it had before the goto.
   */
  lemma GotoThenBack(s: Nav, path: string, w: World)
    requires s.process in s.table && s.cwd != ""
    requires GotoTarget([path], w).Some?
    requires w.chdir(s.cwd, GotoTarget([path], w).value).Some?
    requires w.chdir(s.cwd, GotoTarget([path], w).value).value != s.cwd
    requires w.chdir(w.chdir(s.cwd, GotoTarget([path], w).value).value, s.cwd) == Some(s.cwd)
    ensures var r := BackStep(GotoStep(s, [path], w), w);
      && r.cwd == s.cwd
      && r.table[s.process].currentDir == s.cwd
      && r.table[s.process].history == s.table[s.process].history
  {
    var d := w.chdir(s.cwd, GotoTarget([path], w).value).value;
    var g := GotoStep(s, [path], w);
    UpdateThenPop(s.table, s.process, d, s.cwd, w.pid, w.now);
    var popped := PopIn(g.table, s.process);
    SaveKeepsHistory(popped.table, s.process, s.cwd, w.pid, w.now);
  }

  // ---------------------------------------------------------------------
  // getmethere
  // ---------------------------------------------------------------------

  /** The answer to "Enter number (or 'q' to quit)". */
  datatype Choice = Cancel | Invalid | Pick(index: nat)

  /**
   * The selection check of cmdGetMeThere: "q" or "Q" cancels; otherwise
   * the answer must scan as a number between 1 and the number of
   * directories listed, and picks the directory at that position.
   */
  function Select(choice: string, n: nat): (c: Choice)
    ensures choice == "q" || choice == "Q" ==> c == Cancel
    ensures c.Pick? <==>
      choice != "q" && choice != "Q" && ScanInt(choice).Some? && 1 <= ScanInt(choice).value <= n
    ensures c.Pick? ==> c.index < n && ScanInt(choice) == Some(c.index + 1)
  {
    if choice == "q" || choice == "Q" then Cancel
    else
      match ScanInt(choice)
      case None => Invalid
      case Some(k) => if k < 1 || k > n then Invalid else Pick(k - 1)
  }

  /** Typing the number shown next to a directory picks that directory. */
  lemma SelectShownNumber(k: nat, n: nat)
    requires 1 <= k <= n < 0x8000_0000_0000_0000
    ensures Select(DigitString(k), n) == Pick(k - 1)
  {
    ScanDecimal(k);
    assert DigitString(k) != "q" && DigitString(k) != "Q" by {
      DigitStringDigits(k);
      assert IsDigit(DigitString(k)[0]);
    }
  }

  /** The same once the answer is trimmed, as cmdGetMeThere does. */
  lemma SelectShownNumberTrimmed(k: nat, n: nat)
    requires 1 <= k <= n < 0x8000_0000_0000_0000
    ensures Select(TrimSpace(DigitString(k)), n) == Pick(k - 1)
  {
    DigitStringTrimmed(k);
    SelectShownNumber(k, n);
  }

  /** A number that is not on the list, 0 included, is an invalid selection. */
  lemma SelectOutOfRange(k: nat, n: nat)
    requires k < 0x8000_0000_0000_0000 && (k == 0 || k > n)
    ensures Select(DigitString(k), n) == Invalid
  {
    ScanDecimal(k);
    DigitStringDigits(k);
    assert IsDigit(DigitString(k)[0]);
  }

  /** Where cmdGetMeThere looks: from the current directory first, then from the home directory when that finds nothing. */
  function Search(name: string, s: Nav, w: World): (f: Found)
    ensures |w.find(name, s.cwd, 3, 10).dirs| > 0 ==> f == w.find(name, s.cwd, 3, 10)
  {
    var local := w.find(name, s.cwd, 3, 10);
    if |local.dirs| == 0 then w.find(name, HomeOrEmpty(w), 4, 20) else local
  }

  /**
   * cmdGetMeThere: reads a directory name; a blank one ends the command.
   * When the search fails or finds nothing the command ends; otherwise it
   * reads a choice, and a valid pick moves the process to that directory,
   * remembering the one it left.
   */
  function GetMeThereStep(s: Nav, w: World): (r: Nav)
    ensures IsSuffix(r.input, s.input)
    ensures r.process == s.process && r.display == s.display && r.running == s.running
    ensures r.table != s.table ==> r.table == UpdateIn(s.table, s.process, r.cwd, s.cwd, w.pid, w.now)
  {
    var first := ReadLine(s.input);
    var r := AskStep(Nav(s.table, s.process, s.display, s.running, s.cwd, first.rest), TrimSpace(first.line), w);
    SuffixTransitive(r.input, first.rest, s.input);
    r
  }

  /** cmdGetMeThere once the directory name is read: a blank name ends it, otherwise the directories are searched. */
  function AskStep(s: Nav, name: string, w: World): (r: Nav)
    ensures IsSuffix(r.input, s.input)
    ensures r.process == s.process && r.display == s.display && r.running == s.running
    ensures r.table != s.table ==> r.table == UpdateIn(s.table, s.process, r.cwd, s.cwd, w.pid, w.now)
  {
    if name == "" then s else ChooseStep(s, Search(name, s, w), w)
  }

  /** The rest of cmdGetMeThere once the search is done: nothing found ends it, otherwise a choice is read. */
  function ChooseStep(s: Nav, found: Found, w: World): (r: Nav)
    ensures IsSuffix(r.input, s.input)
    ensures r.process == s.process && r.display == s.display && r.running == s.running
    ensures r.table != s.table ==> r.table == UpdateIn(s.table, s.process, r.cwd, s.cwd, w.pid, w.now)
  {
    if found.err.Some? || |found.dirs| == 0 then s
    else
      var second := ReadLine(s.input);
      PickStep(s.(input := second.rest), found.dirs, Select(TrimSpace(second.line), |found.dirs|), w)
  }

  /** The end of cmdGetMeThere, once the choice is read: a valid pick that can be entered moves the process there. */
  function PickStep(s: Nav, dirs: seq<string>, choice: Choice, w: World): (r: Nav)
    requires choice.Pick? ==> choice.index < |dirs|
    ensures r.input == s.input && r.process == s.process && r.display == s.display && r.running == s.running
    ensures !choice.Pick? ==> r == s
    ensures r.table != s.table ==> r.table == UpdateIn(s.table, s.process, r.cwd, s.cwd, w.pid, w.now)
  {
    match choice
    case Pick(k) =>
      (match w.chdir(s.cwd, dirs[k])
       case None => s
       case Some(d) => s.(cwd := d, table := UpdateIn(s.table, s.process, d, s.cwd, w.pid, w.now)))
    case _ => s
  }

  /** A valid pick of a directory that can be entered moves the shell there. */
  lemma PickEnters(s: Nav, dirs: seq<string>, k: nat, w: World)
    requires k < |dirs| && w.chdir(s.cwd, dirs[k]).Some?
    ensures PickStep(s, dirs, Pick(k), w).cwd == w.chdir(s.cwd, dirs[k]).value
  {
  }

  /** The second half of getmethere: a valid pick read from the next line enters the directory. */
  lemma ChooseReadsChoice(t: Nav, found: Found, w: World, choice: string, rest: seq<string>, k: nat)
    requires t.input == [choice] + rest
    requires found.err.None? && k < |found.dirs|
    requires Select(TrimSpace(choice), |found.dirs|) == Pick(k)
    requires w.chdir(t.cwd, found.dirs[k]).Some?
    ensures ChooseStep(t, found, w).cwd == w.chdir(t.cwd, found.dirs[k]).value
    ensures ChooseStep(t, found, w).input == rest
  {
    assert ([choice] + rest)[1..] == rest;
    assert ReadLine(t.input) == Read(choice, rest);
    var u := t.(input := rest);
    assert ChooseStep(t, found, w) == PickStep(u, found.dirs, Pick(k), w);
    PickEnters(u, found.dirs, k, w);
  }

  /**
   * With a non-blank directory name on the first line, directories found
   * for it, and a valid pick on the second line, cmdGetMeThere enters the
   * directory picked and consumes exactly those two lines.
   */
  lemma GetMeThereReadsTwoLines(s: Nav, w: World, name: string, choice: string, rest: seq<string>, k: nat)
    requires s.input == [name, choice] + rest
    requires TrimSpace(name) != ""
    requires Search(TrimSpace(name), s, w).err.None?
    requires k < |Search(TrimSpace(name), s, w).dirs|
    requires Select(TrimSpace(choice), |Search(TrimSpace(name), s, w).dirs|) == Pick(k)
    requires w.chdir(s.cwd, Search(TrimSpace(name), s, w).dirs[k]).Some?
    ensures GetMeThereStep(s, w).cwd == w.chdir(s.cwd, Search(TrimSpace(name), s, w).dirs[k]).value
    ensures GetMeThereStep(s, w).input == rest
  {
    assert s.input[0] == name && s.input[1..] == [choice] + rest;
    var t := Nav(s.table, s.process, s.display, s.running, s.cwd, [choice] + rest);
    assert GetMeThereStep(s, w) == AskStep(t, TrimSpace(name), w);
    var found := Search(TrimSpace(name), t, w);
    assert found == Search(TrimSpace(name), s, w);
    assert AskStep(t, TrimSpace(name), w) == ChooseStep(t, found, w);
    ChooseReadsChoice(t, found, w, choice, rest, k);
  }

  /**
   * Answering the prompts with a directory name and the number shown next
   * to one of the directories found around the current directory moves the
   * shell into that directory and consumes exactly those two lines.
   */
  lemma GetMeThereExample(s: Nav, w: World, name: string, k: nat, rest: seq<string>)
    requires name != "" && !IsSpace(name[0]) && !IsSpace(name[|name| - 1])
    requires s.input == [name, DigitString(k)] + rest
    requires w.find(name, s.cwd, 3, 10).err.None?
    requires 1 <= k <= |w.find(name, s.cwd, 3, 10).dirs| < 0x8000_0000_0000_0000
    requires w.chdir(s.cwd, w.find(name, s.cwd, 3, 10).dirs[k - 1]).Some?
    ensures var r := GetMeThereStep(s, w);
      && r.cwd == w.chdir(s.cwd, w.find(name, s.cwd, 3, 10).dirs[k - 1]).value
      && r.input == rest
  {
    TrimSpaceKeeps(name);
    SelectShownNumberTrimmed(k, |w.find(name, s.cwd, 3, 10).dirs|);
    GetMeThereReadsTwoLines(s, w, name, DigitString(k), rest, k - 1);
  }

  // ---------------------------------------------------------------------
  // One line, and the REPL
  // ---------------------------------------------------------------------

  /**
   * executeCommand on a line of the shell: the navigation commands as
   * above, `exit` and `quit` stop the loop, and the commands that only
   * print, as well as external commands, leave the state as it is.
   */
  function Step(s: Nav, line: string, w: World, network: bool): (r: Nav)
    ensures IsSuffix(r.input, s.input)
    ensures ParseCommand(line, network).Exit? ==> r == s.(running := false)
    ensures !ParseCommand(line, network).Exit? ==> r.running == s.running
    ensures ParseCommand(line, network).Blank? || ParseCommand(line, network).External? ==> r == s
  {
    Apply(s, ParseCommand(line, network), w)
  }

  /** What a parsed command does to the shell. */
  function Apply(s: Nav, c: Cmd, w: World): (r: Nav)
    ensures IsSuffix(r.input, s.input)
    ensures c.Exit? ==> r == s.(running := false)
    ensures !c.Exit? ==> r.running == s.running
    ensures c.Blank? || c.External? ==> r == s
  {
    match c
    case Goto(args) => GotoStep(s, args, w)
    case Name(args) => NameStep(s, args, w)
    case GetMeThere => GetMeThereStep(s, w)
    case Save => SaveStep(s, w)
    case Jump(args) => JumpStep(s, args, w)
    case Back => BackStep(s, w)
    case Exit => s.(running := false)
    case _ => s
  }

  /**
   * The loop of Run after its first SetProcess: while the shell runs and
   * there is a line, read it, skip it when blank after trimming, and
   * execute it otherwise. It ends with the shell stopped or the input used
   * up.
   */
  function RunFrom(s: Nav, w: World): (r: Nav)
    ensures !r.running || r.input == []
    ensures IsSuffix(r.input, s.input)
    decreases |s.input|
  {
    if !s.running || s.input == [] then s
    else
      var line := TrimSpace(s.input[0]);
      var next := s.(input := s.input[1..]);
      var after := if line == "" then next else Step(next, line, w, false);
      var r := RunFrom(after, w);
      SuffixTransitive(r.input, after.input, next.input);
      SuffixTransitive(r.input, next.input, s.input);
      r
  }

  /** Run: the shell first records itself as "Working in <name>" at the current directory, then reads lines. */
  function Session(s: Nav, w: World): (r: Nav)
    ensures !r.running || r.input == []
    ensures r.process != s.process ==> r.process in r.table
  {
    var started := s.(table := SetIn(s.table, s.process, "Working in " + s.process, s.cwd, w.pid, w.now));
    RunProcessKnown(started, w);
    RunFrom(started, w)
  }

  /** Every process name the loop switches to is in the table. */
  lemma {:induction false} RunProcessKnown(s: Nav, w: World)
    requires s.process in s.table
    ensures RunFrom(s, w).process in RunFrom(s, w).table
    decreases |s.input|
  {
    if s.running && s.input != [] {
      var line := TrimSpace(s.input[0]);
      var next := s.(input := s.input[1..]);
      var after := if line == "" then next else Step(next, line, w, false);
      StepProcessKnown(next, line, w);
      RunProcessKnown(after, w);
    }
  }

  /** No command takes the shell to a process that is not in the table. */
  lemma GotoKeepsKnown(s: Nav, args: seq<string>, w: World)
    requires s.process in s.table
    ensures GotoStep(s, args, w).process in GotoStep(s, args, w).table
  {
  }

  lemma NameKeepsKnown(s: Nav, args: seq<string>, w: World)
    requires s.process in s.table
    ensures NameStep(s, args, w).process in NameStep(s, args, w).table
  {
  }

  lemma GetMeThereKeepsKnown(s: Nav, w: World)
    requires s.process in s.table
    ensures GetMeThereStep(s, w).process in GetMeThereStep(s, w).table
  {
  }

  lemma SaveKeepsKnown(s: Nav, w: World)
    requires s.process in s.table
    ensures SaveStep(s, w).process in SaveStep(s, w).table
  {
  }

  lemma JumpKeepsKnown(s: Nav, args: seq<string>, w: World)
    requires s.process in s.table
    ensures JumpStep(s, args, w).process in JumpStep(s, args, w).table
  {
  }

  lemma BackKeepsKnown(s: Nav, w: World)
    requires s.process in s.table
    ensures BackStep(s, w).process in BackStep(s, w).table
  {
    var popped := PopIn(s.table, s.process);
  }

  lemma ApplyKeepsKnown(s: Nav, c: Cmd, w: World)
    requires s.process in s.table
    ensures Apply(s, c, w).process in Apply(s, c, w).table
  {
    match c
    case Goto(args) => GotoKeepsKnown(s, args, w);
    case Name(args) => NameKeepsKnown(s, args, w);
    case GetMeThere => GetMeThereKeepsKnown(s, w);
    case Save => SaveKeepsKnown(s, w);
    case Jump(args) => JumpKeepsKnown(s, args, w);
    case Back => BackKeepsKnown(s, w);
    case _ =>
  }

  lemma StepProcessKnown(s: Nav, line: string, w: World)
    requires s.process in s.table
    ensures Step(s, line, w, false).process in Step(s, line, w, false).table
  {
    ApplyKeepsKnown(s, ParseCommand(line, false), w);
  }

  /** `exit` ends the session at once: the lines after it are never read. */
  lemma ExitEndsRun(s: Nav, w: World, rest: seq<string>)
    requires s.running
    ensures RunFrom(s.(input := ["exit"] + rest), w) == s.(running := false, input := rest)
  {
    var t := s.(input := ["exit"] + rest);
    assert t.input[0] == "exit" && t.input[1..] == rest;
    TrimSpaceKeeps("exit");
    ParseExit(false);
    var next := t.(input := rest);
    assert Step(next, "exit", w, false) == s.(running := false, input := rest);
  }

  lemma ParseExit(network: bool)
    ensures ParseCommand("exit", network) == Exit
  {
    FieldsOfWord("exit");
  }

  /**
   * The words only the hotspot shell knows, `dns` and `hotspot`, are the
   * only ones its switch reads differently; for every line the navigation
   * step itself is the same in both shells.
   */
  lemma ParseNetwork(line: string)
    ensures ParseCommand(line, true).DnsCmd? <==> Fields(line) != [] && Fields(line)[0] == "dns"
    ensures ParseCommand(line, true).HotspotCmd? <==> Fields(line) != [] && Fields(line)[0] == "hotspot"
    ensures ParseCommand(line, true).DnsCmd? || ParseCommand(line, true).HotspotCmd? ==>
      ParseCommand(line, false) == External(Fields(line))
    ensures !ParseCommand(line, true).DnsCmd? && !ParseCommand(line, true).HotspotCmd? ==>
      ParseCommand(line, true) == ParseCommand(line, false)
  {
  }

  lemma StepIgnoresNetwork(s: Nav, line: string, w: World)
    ensures Step(s, line, w, true) == Step(s, line, w, false)
  {
    ParseNetwork(line);
  }
}

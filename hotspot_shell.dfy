/**
 * The interactive shell of hotspotdnsrouting/shell.go. Its navigation
 * commands are those of the iptp-go shell, line for line, so this Shell
 * holds an IptpShell.Shell for them; on top of it come a DNS router that
 * the `dns` commands replace, start and stop, the `hotspot` commands that
 * drive the platform's hotspot, and external commands, which go through
 * the ExecuteScript of dnsrouting/commands.go and end the whole program
 * with the command's status when the command fails.
 */
module HotspotShell {

  import opened Wrappers
  import opened Text
  import opened ProcessState
  import opened Options
  import opened Navigation
  import DnsRouter
  import Hotspot
  import DnsCommands
  import IptpShell
  import HostEnv

  /** How an external command ended: normally, with a failure status (or a signal), or without starting. */
  datatype ExecResult = Completed | ExitError(code: int) | StartFailed(err: string)

  /**
   * What the hotspot shell sees of its machine besides the World of the
   * navigation commands: runtime.GOOS, the TEMP variable, the device
   * commands, whether the DNS listener fails as soon as it is started (port
   * 53 needs privileges), what shutting the listener down returns, the
   * process environment, and how each external command ends.
   */
  datatype Devices = Devices(
    platform: string,
    temp: string,
    run: Hotspot.Run,
    bindFails: bool,
    shutdownError: Option<string>,
    environ: seq<string>,
    exec: DnsCommands.ShellCommand -> ExecResult)

  /** The fields of the DNS router the shell holds. */
  datatype RouterView = RouterView(
    listen: string,
    upstream: string,
    logFile: string,
    running: bool,
    hasServer: bool,
    queries: seq<DnsRouter.DNSQuery>)

  /** The shell: its navigation state, its router, and the status the program exited with, if it did. */
  datatype HState = HState(nav: Nav, router: RouterView, exitCode: Option<int>)

  /** A running router always has its listener, so `dns stop` always stops it. */
  predicate ListenerKept(r: RouterView) {
    r.running ==> r.hasServer
  }

  // ---------------------------------------------------------------------
  // dns
  // ---------------------------------------------------------------------

  /** NewDNSRouter: stopped, without listener or records, logging to the platform's file. */
  function NewRouter(listen: string, upstream: string, goos: string, temp: string): RouterView {
    RouterView(listen, upstream, DnsRouter.LogPath(goos, temp), false, false, [])
  }

  /** Start, then the listener's own failure when it cannot serve. */
  function StartStep(r: RouterView, d: Devices): RouterView {
    if r.running then r else r.(running := !d.bindFails, hasServer := true)
  }

  /** dnsStart: refused while running; otherwise a new router with the options given, started. */
  function DnsStartStep(r: RouterView, args: seq<string>, d: Devices): RouterView {
    if r.running then r
    else
      var o := Scan(args, ListenFlags, UpstreamFlags, DnsDefaults);
      StartStep(NewRouter(o.first, o.second, d.platform, d.temp), d)
  }

  /** dnsStop: only a running router with a listener changes; it stops whatever Shutdown returns. */
  function DnsStopStep(r: RouterView): RouterView {
    if r.running && r.hasServer then r.(running := false) else r
  }

  /** The count dnsLogs asks for: 10, unless the first argument scans as %d. */
  function LogsCount(args: seq<string>): int {
    if args != [] && ScanInt(args[0]).Some? then ScanInt(args[0]).value else 10
  }

  /** cmdDNS: `start` and `stop` change the router; the other subcommands only read it. */
  function DnsStep(r: RouterView, args: seq<string>, d: Devices): RouterView {
    if args == [] then r
    else if args[0] == "start" then DnsStartStep(r, args[1..], d)
    else if args[0] == "stop" then DnsStopStep(r)
    else r
  }

  /** Starting while running changes nothing: the options given are ignored. */
  lemma StartWhileRunning(r: RouterView, args: seq<string>, d: Devices)
    requires r.running
    ensures DnsStep(r, ["start"] + args, d) == r
  {
  }

  /**
   * A stop and a start give a router with the new options and an empty
   * buffer: the records of the previous router are not carried over.
   */
  lemma RestartDropsRecords(r: RouterView, args: seq<string>, d: Devices)
    requires ListenerKept(r)
    ensures var o := Scan(args, ListenFlags, UpstreamFlags, DnsDefaults);
      var r2 := DnsStep(DnsStep(r, ["stop"], d), ["start"] + args, d);
      && r2.listen == o.first && r2.upstream == o.second
      && r2.queries == []
      && r2.hasServer && (r2.running <==> !d.bindFails)
  {
    assert (["start"] + args)[1..] == args;
  }

  /** Every dns subcommand keeps a running router's listener. */
  lemma DnsKeepsListener(r: RouterView, args: seq<string>, d: Devices)
    ensures ListenerKept(r) ==> ListenerKept(DnsStep(r, args, d))
    ensures ListenerKept(r) && args != [] && args[0] == "stop" ==> !DnsStep(r, args, d).running
  {
  }

  /** `dns logs <k>` asks for k records, for every k that fits in Go's int. */
  lemma LogsCountOfNumber(k: nat, rest: seq<string>)
    requires k < 0x8000_0000_0000_0000
    ensures LogsCount([DigitString(k)] + rest) == k
  {
    ScanDecimal(k);
  }

  /** Without an argument, or with one that does not scan, ten records are asked for. */
  lemma LogsCountDefault(args: seq<string>)
    requires args == [] || ScanInt(args[0]).None?
    ensures LogsCount(args) == 10
  {
  }

  /**
   * `dns logs -3` reaches GetRecentQueries with a negative count, where the
   * source's slice panics whatever the buffer holds; the corrected
   * GetRecentQueries shows nothing.
   */
  lemma NegativeLogsCount(buf: seq<DnsRouter.DNSQuery>)
    ensures LogsCount(["-3"]) == -3
    ensures DnsRouter.RecentQueriesAsWritten(buf, LogsCount(["-3"])) == None
    ensures DnsRouter.RecentQueries(buf, LogsCount(["-3"])) == []
  {
    assert "-3"[1..] == "3";
    assert DigitRunLen("3") == 1;
    assert "3"[..1] == "3";
    assert DigitsValue("3") == 3 by {
      assert "3"[..0] == "";
    }
  }

  // ---------------------------------------------------------------------
  // hotspot
  // ---------------------------------------------------------------------

  /** What a hotspot subcommand did to the machine's hotspot. */
  datatype HotspotEffect =
    | NoEffect
    | EnableTried(ssid: string, password: string, result: Result<(), string>)
    | DisableTried(result: Result<(), string>)

  datatype HResult = HResult(state: HState, effect: HotspotEffect)

  function LowerAscii(s: string): string {
    seq(|s|, i requires 0 <= i < |s| => LowerAsciiChar(s[i]))
  }

  /**
   * The confirmation of hotspotEnable: the trimmed answer in lower case is
   * "y" or "yes". strings.ToLower maps no other character to 'y', 'e' or
   * 's', so lowering ASCII letters decides the same.
   */
  predicate Consent(answer: string) {
    LowerAscii(TrimSpace(answer)) in {"y", "yes"}
  }

  lemma LowerAsciiCharIs(c: char, l: char)
    requires 'a' <= l <= 'z'
    ensures LowerAsciiChar(c) == l <==> c == l || c as int == l as int - 32
  {
  }

  lemma LowerIsY(t: string)
    requires |t| == 1
    ensures LowerAscii(t) == "y" <==> t[0] in "yY"
  {
    LowerAsciiCharIs(t[0], 'y');
    assert LowerAscii(t) == "y" <==> LowerAscii(t)[0] == 'y';
  }

  lemma LowerIsYes(t: string)
    requires |t| == 3
    ensures LowerAscii(t) == "yes" <==> t[0] in "yY" && t[1] in "eE" && t[2] in "sS"
  {
    var l := LowerAscii(t);
    LowerAsciiCharIs(t[0], 'y');
    LowerAsciiCharIs(t[1], 'e');
    LowerAsciiCharIs(t[2], 's');
    assert l == "yes" <==> l[0] == 'y' && l[1] == 'e' && l[2] == 's';
  }

  lemma LowerIsConsent(t: string)
    ensures LowerAscii(t) in {"y", "yes"} <==>
      || (|t| == 1 && t[0] in "yY")
      || (|t| == 3 && t[0] in "yY" && t[1] in "eE" && t[2] in "sS")
  {
    if |t| == 1 {
      LowerIsY(t);
    } else if |t| == 3 {
      LowerIsYes(t);
    } else {
      assert |LowerAscii(t)| == |t|;
    }
  }

  /** The answers that consent: y or yes in any mix of cases, with spaces around. */
  lemma ConsentAnswers(answer: string)
    ensures Consent(answer) <==>
      var t := TrimSpace(answer);
      || (|t| == 1 && t[0] in "yY")
      || (|t| == 3 && t[0] in "yY" && t[1] in "eE" && t[2] in "sS")
  {
    LowerIsConsent(TrimSpace(answer));
  }

  /** An empty answer, which is what the end of the input gives, declines. */
  lemma EmptyAnswerDeclines()
    ensures !Consent("")
  {
    TrimSpaceKeeps("");
  }

  /**
   * hotspotEnable: the WiFi check comes first; only when connected is a
   * line read, and then the hotspot is enabled only with consent.
   */
  function EnableStep(h: HState, args: seq<string>, d: Devices): HResult {
    var o := Scan(args, SsidFlags, PasswordFlags, HotspotDefaults);
    match Hotspot.IsConnectedToWiFi(d.platform, d.run)
    case Err(_) => HResult(h, NoEffect)
    case Ok(connected) =>
      var tried := EnableTried(o.first, o.second, Hotspot.EnableHotspot(d.platform, o.first, o.second, d.run));
      if connected then
        var answer := ReadLine(h.nav.input);
        var h' := h.(nav := h.nav.(input := answer.rest));
        if Consent(answer.line) then HResult(h', tried) else HResult(h', NoEffect)
      else HResult(h, tried)
  }

  /**
   * hotspotAuto: nothing when the WiFi check fails or WiFi is connected;
   * otherwise the hotspot is enabled and, when that worked and an address
   * is found, the router the shell already holds is started.
   */
  function AutoStep(h: HState, args: seq<string>, d: Devices): HResult {
    var o := Scan(args, SsidFlags, PasswordFlags, HotspotDefaults);
    match Hotspot.IsConnectedToWiFi(d.platform, d.run)
    case Err(_) => HResult(h, NoEffect)
    case Ok(connected) =>
      if connected then HResult(h, NoEffect)
      else
        var enabled := Hotspot.EnableHotspot(d.platform, o.first, o.second, d.run);
        var h' := if enabled.Ok? && Hotspot.GetIPAddress(d.platform, d.run).Ok?
          then h.(router := StartStep(h.router, d)) else h;
        HResult(h', EnableTried(o.first, o.second, enabled))
  }

  /** cmdHotspot: `status` and unknown subcommands only print. */
  function HotspotStep(h: HState, args: seq<string>, d: Devices): (r: HResult)
    ensures IsSuffix(r.state.nav.input, h.nav.input)
    ensures r.state.nav == h.nav.(input := r.state.nav.input)
    ensures r.state.exitCode == h.exitCode
    ensures ListenerKept(h.router) ==> ListenerKept(r.state.router)
    ensures r.state.router != h.router ==> args != [] && args[0] == "auto" && !h.router.running
    ensures r.state.router.listen == h.router.listen && r.state.router.upstream == h.router.upstream
    ensures r.state.router.queries == h.router.queries
  {
    if args == [] then HResult(h, NoEffect)
    else if args[0] == "enable" then EnableStep(h, args[1..], d)
    else if args[0] == "disable" then HResult(h, DisableTried(Hotspot.DisableHotspot(d.platform, d.run)))
    else if args[0] == "auto" then AutoStep(h, args[1..], d)
    else HResult(h, NoEffect)
  }

  /** hotspotEnable reads a line exactly when WiFi is connected, and enables nothing without consent. */
  lemma EnableAsksOnlyWhenConnected(h: HState, args: seq<string>, d: Devices)
    requires Hotspot.IsConnectedToWiFi(d.platform, d.run).Ok?
    ensures var connected := Hotspot.IsConnectedToWiFi(d.platform, d.run).value;
      var r := EnableStep(h, args, d);
      && r.state == h.(nav := h.nav.(input := if connected then ReadLine(h.nav.input).rest else h.nav.input))
      && (r.effect.EnableTried? <==> !connected || Consent(ReadLine(h.nav.input).line))
  {
  }

  /** Without options the hotspot is enabled as IPTP-Hotspot with password iptp123456. */
  lemma EnableDefaults(h: HState, d: Devices)
    requires Hotspot.IsConnectedToWiFi(d.platform, d.run) == Ok(false)
    ensures EnableStep(h, [], d).effect
      == EnableTried("IPTP-Hotspot", "iptp123456", Hotspot.EnableHotspot(d.platform, "IPTP-Hotspot", "iptp123456", d.run))
  {
  }

  /**
   * hotspotAuto starts the router the shell holds, with its configuration
   * and records unchanged; it starts it exactly when WiFi is off, the
   * hotspot came up, an address was found and the listener can serve.
   */
  lemma AutoStartsHeldRouter(h: HState, args: seq<string>, d: Devices)
    requires !h.router.running
    ensures var o := Scan(args, SsidFlags, PasswordFlags, HotspotDefaults);
      var r := AutoStep(h, args, d).state.router;
      && r.listen == h.router.listen && r.upstream == h.router.upstream
      && r.logFile == h.router.logFile && r.queries == h.router.queries
      && (r.running <==>
           && Hotspot.IsConnectedToWiFi(d.platform, d.run) == Ok(false)
           && Hotspot.EnableHotspot(d.platform, o.first, o.second, d.run).Ok?
           && Hotspot.GetIPAddress(d.platform, d.run).Ok?
           && !d.bindFails)
  {
  }

  // ---------------------------------------------------------------------
  // external commands
  // ---------------------------------------------------------------------

  /**
   * cmdExec through ExecuteScript: a command that exits with a failure
   * status makes the program exit with that status; the shell reads no
   * further line.
   */
  function ExecStep(h: HState, parts: seq<string>, w: World, d: Devices): HState
    requires DnsCommands.Words(parts)
  {
    match DnsCommands.FixedScript(parts, d.platform, d.environ, w.pid)
    case None => h
    case Some(c) =>
      match d.exec(c)
      case ExitError(code) => h.(nav := h.nav.(running := false), exitCode := Some(code))
      case _ => h
  }

  // ---------------------------------------------------------------------
  // The loop
  // ---------------------------------------------------------------------

  /**
   * executeCommand of the hotspot shell. Lines that are no dns, hotspot or
   * external command act on the navigation state as in the iptp-go shell
   * (see Navigation.StepIgnoresNetwork).
   */
  function HStep(h: HState, line: string, w: World, d: Devices): (r: HState)
    ensures IsSuffix(r.nav.input, h.nav.input)
    ensures r.exitCode != h.exitCode ==> ParseCommand(line, true).External? && !r.nav.running
    ensures ListenerKept(h.router) ==> ListenerKept(r.router)
    ensures ParseCommand(line, true).DnsCmd? ==> r.nav == h.nav && r.exitCode == h.exitCode
    ensures !ParseCommand(line, true).DnsCmd? && !ParseCommand(line, true).HotspotCmd? ==> r.router == h.router
    ensures (!ParseCommand(line, true).DnsCmd? && !ParseCommand(line, true).HotspotCmd?
             && !ParseCommand(line, true).External?) ==> r == h.(nav := Step(h.nav, line, w, false))
  {
    match ParseCommand(line, true)
    case DnsCmd(args) =>
      DnsKeepsListener(h.router, args, d);
      h.(router := DnsStep(h.router, args, d))
    case HotspotCmd(args) => HotspotStep(h, args, d).state
    case External(parts) => ExecStep(h, parts, w, d)
    case _ =>
      StepIgnoresNetwork(h.nav, line, w);
      h.(nav := Step(h.nav, line, w, false))
  }

  /** Which step a line of each kind takes. */
  lemma HStepCases(h: HState, line: string, w: World, d: Devices)
    ensures var parts := Fields(line);
      && (parts == [] ==> HStep(h, line, w, d) == h)
      && (parts != [] && parts[0] == "dns" ==> HStep(h, line, w, d) == h.(router := DnsStep(h.router, parts[1..], d)))
      && (parts != [] && parts[0] == "hotspot" ==> HStep(h, line, w, d) == HotspotStep(h, parts[1..], d).state)
      && (parts != [] && parts[0] !in Builtins(true) ==> HStep(h, line, w, d) == ExecStep(h, parts, w, d))
      && (parts != [] && parts[0] in Builtins(true) - {"dns", "hotspot"} ==>
           HStep(h, line, w, d) == h.(nav := Step(h.nav, line, w, false)))
  {
    var parts := Fields(line);
    ParseNetwork(line);
    if parts != [] && parts[0] == "dns" {
      assert ParseCommand(line, true) == DnsCmd(parts[1..]);
    } else if parts != [] && parts[0] == "hotspot" {
      assert ParseCommand(line, true) == HotspotCmd(parts[1..]);
    }
  }

  /** The loop of Run: read, trim, skip blank lines, execute, until stopped or out of input. */
  function HRunFrom(h: HState, w: World, d: Devices): (r: HState)
    ensures !r.nav.running || r.nav.input == []
    ensures IsSuffix(r.nav.input, h.nav.input)
    ensures r.exitCode != h.exitCode ==> !r.nav.running
    ensures ListenerKept(h.router) ==> ListenerKept(r.router)
    decreases |h.nav.input|
  {
    if !h.nav.running || h.nav.input == [] then h
    else
      var line := TrimSpace(h.nav.input[0]);
      var next := h.(nav := h.nav.(input := h.nav.input[1..]));
      var after := if line == "" then next else HStep(next, line, w, d);
      var r := HRunFrom(after, w, d);
      SuffixTransitive(r.nav.input, after.nav.input, next.nav.input);
      SuffixTransitive(r.nav.input, next.nav.input, h.nav.input);
      r
  }

  /** Run: the shell records itself as "Working in <name>", then reads lines. */
  function HSession(h: HState, w: World, d: Devices): (r: HState)
    ensures !r.nav.running || r.nav.input == []
    ensures r.exitCode != h.exitCode ==> !r.nav.running
    ensures ListenerKept(h.router) ==> ListenerKept(r.router)
  {
    var nav := h.nav.(table := SetIn(h.nav.table, h.nav.process, "Working in " + h.nav.process, h.nav.cwd, w.pid, w.now));
    HRunFrom(h.(nav := nav), w, d)
  }

  /** A failing external command stops the shell and records its status; nothing else changes. */
  lemma FailingCommandStep(h: HState, line: string, w: World, d: Devices)
    requires ParseCommand(line, true).External?
    requires d.exec(DnsCommands.FixedScript(Fields(line), d.platform, d.environ, w.pid).value).ExitError?
    ensures var code := d.exec(DnsCommands.FixedScript(Fields(line), d.platform, d.environ, w.pid).value).code;
      HStep(h, line, w, d) == h.(nav := h.nav.(running := false), exitCode := Some(code))
  {
  }

  /**
   * A line that runs an external command which then fails ends the
   * session: the program exits with the command's status, and the lines
   * after it are never read.
   */
  lemma FailingCommandEndsSession(h: HState, w: World, d: Devices)
    requires h.nav.running && h.nav.input != []
    requires ParseCommand(TrimSpace(h.nav.input[0]), true).External?
    requires d.exec(DnsCommands.FixedScript(Fields(TrimSpace(h.nav.input[0])), d.platform, d.environ, w.pid).value).ExitError?
    ensures var code := d.exec(DnsCommands.FixedScript(Fields(TrimSpace(h.nav.input[0])), d.platform, d.environ, w.pid).value).code;
      HRunFrom(h, w, d) == h.(nav := h.nav.(input := h.nav.input[1..], running := false), exitCode := Some(code))
  {
    var line := TrimSpace(h.nav.input[0]);
    var next := h.(nav := h.nav.(input := h.nav.input[1..]));
    assert line != "";
    FailingCommandStep(next, line, w, d);
    assert HRunFrom(h, w, d) == HRunFrom(HStep(next, line, w, d), w, d);
  }

  // ---------------------------------------------------------------------
  // The Shell object
  // ---------------------------------------------------------------------

  function RouterViewOf(r: DnsRouter.Router): RouterView
    reads r
  {
    RouterView(r.listenAddr, r.upstreamDNS, r.logFile, r.running, r.hasServer, r.queries)
  }

  /** What hotspotStatus reports. */
  datatype StatusReport =
    | StatusUnknown(err: string)
    | Disabled
    | Enabled(ip: Result<string, string>, dnsQueries: Option<nat>)

  class Shell {
    /** The navigation part, shared with the iptp-go shell: process state, names, directory, input. */
    const nav: IptpShell.Shell
    var dnsRouter: DnsRouter.Router
    /** The status os.Exit ended the program with, once an external command failed. */
    var exitCode: Option<int>

    function View(): HState
      reads this, nav, nav.state, dnsRouter
    {
      HState(nav.View(), RouterViewOf(dnsRouter), exitCode)
    }

    ghost predicate Valid()
      reads this, dnsRouter
    {
      dnsRouter.Valid() && (dnsRouter.running ==> dnsRouter.hasServer)
    }

    /** NewShell: the navigation part of the iptp-go shell and a stopped router with the default configuration. */
    constructor (state: State, counter: IptpShell.ShellCounter, pid: int, cwd: string, input: seq<string>,
                 goos: string, temp: string)
      modifies counter
      ensures Valid()
      ensures nav.state == state && counter.value == old(counter.value) + 1
      ensures View() == HState(
        Nav(state.processes, HostEnv.ShellName(pid), "IPTP-" + Decimal(counter.value), true, cwd, input),
        NewRouter("0.0.0.0:53", "8.8.8.8:53", goos, temp),
        None)
    {
      nav := new IptpShell.Shell(state, counter, pid, cwd, input);
      dnsRouter := new DnsRouter.Router(DnsDefaults.first, DnsDefaults.second, goos, temp);
      exitCode := None;
    }

    method DnsStart(args: seq<string>, d: Devices)
      requires Valid()
      modifies this, dnsRouter
      ensures Valid() && (dnsRouter == old(dnsRouter) || fresh(dnsRouter))
      ensures View() == old(View()).(router := DnsStartStep(old(View()).router, args, d))
    {
      if dnsRouter.IsRunning() {
        return;
      }
      var o := ParseOptions(args, ListenFlags, UpstreamFlags, DnsDefaults);
      dnsRouter := new DnsRouter.Router(o.first, o.second, d.platform, d.temp);
      var started := dnsRouter.Start();
      if d.bindFails {
        dnsRouter.ServeFailed();
      }
    }

    method DnsStop(d: Devices)
      requires Valid()
      modifies dnsRouter
      ensures Valid()
      ensures View() == old(View()).(router := DnsStopStep(old(View()).router))
    {
      if !dnsRouter.IsRunning() {
        return;
      }
      var stopped := dnsRouter.Stop(d.shutdownError);
    }

    /** dnsLogs (with the corrected GetRecentQueries): the most recent records, as many as asked for and held. */
    method DnsLogs(args: seq<string>) returns (shown: seq<DnsRouter.DNSQuery>)
      ensures |shown| == if LogsCount(args) <= 0 then 0 else DnsRouter.Min(LogsCount(args), |dnsRouter.queries|)
      ensures shown == dnsRouter.queries[|dnsRouter.queries| - |shown|..]
    {
      var count := 10;
      if |args| > 0 {
        var scanned := ScanInt(args[0]);
        if scanned.Some? {
          count := scanned.value;
        }
      }
      shown := dnsRouter.GetRecentQueries(count);
    }

    /** dnsStatus: the statistics are shown only while the router runs. */
    method DnsStatus() returns (s: Option<DnsRouter.Stats>)
      ensures s.Some? <==> dnsRouter.running
      ensures s.Some? ==>
        && s.value.totalQueries == |dnsRouter.queries|
        && s.value.uniqueDomains == |DnsRouter.DomainsOf(dnsRouter.queries)|
        && s.value.listenAddress == dnsRouter.listenAddr && s.value.upstreamDNS == dnsRouter.upstreamDNS
    {
      if !dnsRouter.IsRunning() {
        return None;
      }
      var stats := dnsRouter.GetStats();
      return Some(stats);
    }

    method CmdDns(args: seq<string>, d: Devices)
      requires Valid()
      modifies this, dnsRouter
      ensures Valid() && (dnsRouter == old(dnsRouter) || fresh(dnsRouter))
      ensures View() == old(View()).(router := DnsStep(old(View()).router, args, d))
    {
      if |args| == 0 {
        return;
      }
      var subCmd := args[0];
      var subArgs := args[1..];
      if subCmd == "start" {
        DnsStart(subArgs, d);
      } else if subCmd == "stop" {
        DnsStop(d);
      } else if subCmd == "status" {
        var s := DnsStatus();
      } else if subCmd == "logs" {
        var shown := DnsLogs(subArgs);
      }
      // stats, install and unknown subcommands only print.
    }

    method HotspotEnable(args: seq<string>, d: Devices) returns (effect: HotspotEffect)
      modifies nav
      ensures HResult(View(), effect) == EnableStep(old(View()), args, d)
    {
      ghost var h := View();
      var o := ParseOptions(args, SsidFlags, PasswordFlags, HotspotDefaults);
      var connected := Hotspot.IsConnectedToWiFi(d.platform, d.run);
      if connected.Err? {
        return NoEffect;
      }
      if connected.value {
        var response := nav.ReadString();
        ghost var answer := ReadLine(h.nav.input);
        assert response == answer.line;
        assert View() == h.(nav := h.nav.(input := answer.rest));
        response := LowerAscii(TrimSpace(response));
        if response != "y" && response != "yes" {
          assert !Consent(answer.line);
          return NoEffect;
        }
        assert Consent(answer.line);
      }
      var enabled := Hotspot.EnableHotspot(d.platform, o.first, o.second, d.run);
      effect := EnableTried(o.first, o.second, enabled);
    }

    method HotspotAuto(args: seq<string>, d: Devices) returns (effect: HotspotEffect)
      requires Valid()
      modifies dnsRouter
      ensures Valid()
      ensures HResult(View(), effect) == AutoStep(old(View()), args, d)
    {
      var o := ParseOptions(args, SsidFlags, PasswordFlags, HotspotDefaults);
      var connected := Hotspot.IsConnectedToWiFi(d.platform, d.run);
      if connected.Err? || connected.value {
        return NoEffect;
      }
      var enabled := Hotspot.EnableHotspot(d.platform, o.first, o.second, d.run);
      effect := EnableTried(o.first, o.second, enabled);
      if enabled.Err? {
        return;
      }
      var ip := Hotspot.GetIPAddress(d.platform, d.run);
      if ip.Ok? {
        var started := dnsRouter.Start();
        if started.Ok? && d.bindFails {
          dnsRouter.ServeFailed();
        }
      }
    }

    /** hotspotStatus: the address and the router's count are looked up only when the hotspot is on. */
    method HotspotStatus(d: Devices) returns (s: StatusReport)
      ensures Hotspot.GetHotspotStatus(d.platform, d.run).Err? <==> s.StatusUnknown?
      ensures s.Disabled? <==> Hotspot.GetHotspotStatus(d.platform, d.run) == Ok(false)
      ensures s.Enabled? ==>
        && s.ip == Hotspot.GetIPAddress(d.platform, d.run)
        && (s.dnsQueries.Some? <==> s.ip.Ok? && dnsRouter.running)
        && (s.dnsQueries.Some? ==> s.dnsQueries.value == |dnsRouter.queries|)
    {
      var enabled := Hotspot.GetHotspotStatus(d.platform, d.run);
      if enabled.Err? {
        return StatusUnknown(enabled.error);
      }
      if !enabled.value {
        return Disabled;
      }
      var ip := Hotspot.GetIPAddress(d.platform, d.run);
      var queries: Option<nat> := None;
      if ip.Ok? && dnsRouter.IsRunning() {
        var stats := dnsRouter.GetStats();
        queries := Some(stats.totalQueries);
      }
      return Enabled(ip, queries);
    }

    method CmdHotspot(args: seq<string>, d: Devices) returns (effect: HotspotEffect)
      requires Valid()
      modifies nav, dnsRouter
      ensures Valid()
      ensures HResult(View(), effect) == HotspotStep(old(View()), args, d)
    {
      effect := NoEffect;
      if |args| == 0 {
        return;
      }
      var subCmd := args[0];
      if subCmd == "enable" {
        effect := HotspotEnable(args[1..], d);
      } else if subCmd == "disable" {
        effect := DisableTried(Hotspot.DisableHotspot(d.platform, d.run));
      } else if subCmd == "status" {
        var s := HotspotStatus(d);
      } else if subCmd == "auto" {
        effect := HotspotAuto(args[1..], d);
      }
    }

    /** cmdExec: the command handed to the platform shell; a failing one ends the program. */
    method CmdExec(parts: seq<string>, w: World, d: Devices) returns (launched: Option<DnsCommands.ShellCommand>)
      requires DnsCommands.Words(parts)
      modifies this, nav
      ensures View() == ExecStep(old(View()), parts, w, d)
      ensures dnsRouter == old(dnsRouter)
      ensures launched == DnsCommands.FixedScript(parts, d.platform, d.environ, w.pid)
    {
      launched := DnsCommands.FixedScript(parts, d.platform, d.environ, w.pid);
      if launched.None? {
        return;
      }
      var result := d.exec(launched.value);
      if result.ExitError? {
        nav.running := false;
        exitCode := Some(result.code);
      }
    }

    /**
     * executeCommand: `dns`, `hotspot` and external commands here; the
     * other words are the iptp-go shell's, and its executeCommand runs them.
     */
    method ExecuteCommand(line: string, w: World, d: Devices)
      returns (launched: Option<DnsCommands.ShellCommand>, effect: HotspotEffect)
      requires Valid()
      modifies this, nav, nav.state, dnsRouter
      ensures Valid() && (dnsRouter == old(dnsRouter) || fresh(dnsRouter))
      ensures View() == HStep(old(View()), line, w, d)
      ensures launched.Some? <==> ParseCommand(line, true).External?
      ensures effect != NoEffect ==> ParseCommand(line, true).HotspotCmd?
    {
      launched, effect := None, NoEffect;
      HStepCases(View(), line, w, d);
      ParseNetwork(line);
      var parts := Fields(line);
      if |parts| == 0 {
        return;
      }
      if parts[0] == "dns" {
        CmdDns(parts[1..], d);
      } else if parts[0] == "hotspot" {
        effect := CmdHotspot(parts[1..], d);
      } else if parts[0] !in Builtins(true) {
        launched := CmdExec(parts, w, d);
      } else {
        var none := nav.ExecuteCommand(line, w, d.environ);
      }
    }

    /** One turn of the loop of Run: read a line, and execute it unless it is blank. */
    method Turn(w: World, d: Devices)
      requires Valid() && nav.running && nav.input != []
      modifies this, nav, nav.state, dnsRouter
      ensures Valid() && (dnsRouter == old(dnsRouter) || fresh(dnsRouter))
      ensures HRunFrom(View(), w, d) == HRunFrom(old(View()), w, d)
      ensures |nav.input| < |old(nav.input)|
    {
      ghost var h := View();
      var line := nav.ReadString();
      assert View() == h.(nav := h.nav.(input := h.nav.input[1..]));
      line := TrimSpace(line);
      if line == "" {
        return;
      }
      var launched, effect := ExecuteCommand(line, w, d);
    }

    /** Run: records the shell's process, then executes lines until exit, a failing external command, or the end of the input. */
    method Run(w: World, d: Devices)
      requires Valid()
      modifies this, nav, nav.state, dnsRouter
      ensures Valid()
      ensures View() == HSession(old(View()), w, d)
    {
      nav.state.SetProcess(nav.currentProcess, "Working in " + nav.currentProcess, nav.cwd, w.pid, w.now);
      while nav.running
        invariant Valid() && (dnsRouter == old(dnsRouter) || fresh(dnsRouter))
        invariant HRunFrom(View(), w, d) == HSession(old(View()), w, d)
        decreases |nav.input|
      {
        if nav.input == [] {
          break;
        }
        Turn(w, d);
      }
    }
  }
}

/**
 * The hotspot manager of dnsrouting/hotspot.go. Each platform operation
 * runs an external command and reads its captured output; the commands
 * are not modelled, only what is made of their output. `Run` stands for
 * exec.Command(argv...).Output(): the output text and the error, if any,
 * that running that command line gives.
 */
module Hotspot {

  import opened Wrappers
  import opened Text

  datatype CmdOut = CmdOut(output: string, err: Option<string>)

  /** The external commands the manager runs; Argv gives each one's command line. */
  datatype Command =
    | MacProbe(iface: string)
    | MacEnableSharing
    | MacDisableSharing
    | MacStatus
    | MacBridgeAddr
    | LinuxDevices
    | LinuxEnable(ssid: string, password: string)
    | LinuxDisable
    | LinuxActive
    | LinuxAddr
    | WindowsInterfaces
    | WindowsSet(ssid: string, password: string)
    | WindowsStart
    | WindowsStop
    | WindowsHosted
    | Ipconfig

  function Argv(c: Command): seq<string> {
    match c
    case MacProbe(iface) =>
      ["sh", "-c", "ifconfig " + iface + " | grep 'inet ' | grep -v 'inet6' | grep -v '127.0.0.1'"]
    case MacEnableSharing => ["osascript", "-e", "(enable Internet Sharing)"]
    case MacDisableSharing => ["osascript", "-e", "(disable Internet Sharing)"]
    case MacStatus =>
      ["defaults", "read", "/Library/Preferences/SystemConfiguration/com.apple.nat", "NAT", "-dict", "Enabled"]
    case MacBridgeAddr => ["ifconfig", "bridge100"]
    case LinuxDevices => ["nmcli", "-t", "-f", "DEVICE,STATE", "device"]
    case LinuxEnable(ssid, password) => ["nmcli", "device", "wifi", "hotspot", "ssid", ssid, "password", password]
    case LinuxDisable => ["nmcli", "connection", "down", "Hotspot"]
    case LinuxActive => ["nmcli", "-t", "-f", "NAME,TYPE,DEVICE", "connection", "show", "--active"]
    case LinuxAddr => ["ip", "addr", "show"]
    case WindowsInterfaces => ["netsh", "wlan", "show", "interfaces"]
    case WindowsSet(ssid, password) =>
      ["netsh", "wlan", "set", "hostednetwork", "mode=allow", "ssid=" + ssid, "key=" + password]
    case WindowsStart => ["netsh", "wlan", "start", "hostednetwork"]
    case WindowsStop => ["netsh", "wlan", "stop", "hostednetwork"]
    case WindowsHosted => ["netsh", "wlan", "show", "hostednetwork"]
    case Ipconfig => ["ipconfig"]
  }

  /** What running each command gives: its captured output and its error, if any. */
  type Run = Command -> CmdOut

  function Unsupported(platform: string): string {
    "unsupported platform: " + platform
  }

  const NoIPFound := "no IP address found"

  function Lines(output: string): seq<string> {
    Split(output, '\n')
  }

  // ---- macOS ----

  /** The interfaces isConnectedMac probes, in order: en0, then en1 to en3. */
  const MacInterfaces: seq<string> := ["en0", "en1", "en2", "en3"]

  predicate ProbeUp(o: CmdOut) {
    o.err.None? && TrimSpace(o.output) != ""
  }

  /** isConnectedMac: some interface en0..en3 has an address. It never reports an error. */
  predicate MacConnected(run: Run) {
    exists i :: 0 <= i < 4 && ProbeUp(run(MacProbe(MacInterfaces[i])))
  }

  /** isConnectedMac tries en0, then en1 to en3, and stops at the first with an address. */
  method IsConnectedMac(run: Run) returns (connected: bool)
    ensures connected == MacConnected(run)
  {
    var i := 0;
    while i < 4
      invariant 0 <= i <= 4
      invariant forall j :: 0 <= j < i ==> !ProbeUp(run(MacProbe(MacInterfaces[j])))
    {
      var out := run(MacProbe(MacInterfaces[i]));
      if ProbeUp(out) {
        return true;
      }
      i := i + 1;
    }
    return false;
  }

  /** A line of `ifconfig bridge100` that yields the address: it holds "inet " and has two fields. */
  predicate MacCandidate(line: string) {
    Contains(line, "inet ") && |Fields(line)| >= 2
  }

  /** getIPAddressMac's scan: the second field of the first candidate line. */
  function MacIP(lines: seq<string>): Option<string>
    decreases |lines|
  {
    if lines == [] then None
    else if MacCandidate(lines[0]) then Some(Fields(lines[0])[1])
    else MacIP(lines[1..])
  }

  lemma {:induction false} MacIPIsFirstMatch(lines: seq<string>, i: nat)
    requires i < |lines| && MacCandidate(lines[i])
    requires forall j :: 0 <= j < i ==> !MacCandidate(lines[j])
    ensures MacIP(lines) == Some(Fields(lines[i])[1])
    decreases i
  {
    if i > 0 {
      MacIPIsFirstMatch(lines[1..], i - 1);
    }
  }

  lemma {:induction false} MacIPNone(lines: seq<string>)
    ensures MacIP(lines).None? <==> forall i :: 0 <= i < |lines| ==> !MacCandidate(lines[i])
    decreases |lines|
  {
    if lines != [] {
      MacIPNone(lines[1..]);
      assert forall i :: 1 <= i < |lines| ==> lines[i] == lines[1..][i - 1];
    }
  }

  /** The loop of getIPAddressMac over the output lines. */
  method ScanMacIP(lines: seq<string>) returns (ip: Option<string>)
    ensures ip == MacIP(lines)
  {
    var k := 0;
    while k < |lines|
      invariant 0 <= k <= |lines|
      invariant MacIP(lines) == MacIP(lines[k..])
    {
      assert lines[k..][1..] == lines[k + 1..];
      if Contains(lines[k], "inet ") {
        var parts := Fields(lines[k]);
        if |parts| >= 2 {
          return Some(parts[1]);
        }
      }
      k := k + 1;
    }
    return None;
  }

  // ---- Linux ----

  /** A line of `nmcli ... device` that counts as a connected wireless device. */
  predicate ConnectedLine(line: string) {
    Contains(line, "connected") && Contains(line, "wlan")
  }

  predicate WlanConnected(lines: seq<string>) {
    exists i :: 0 <= i < |lines| && ConnectedLine(lines[i])
  }

  /** The test is on substrings, so a disconnected wlan device counts as connected. */
  lemma DisconnectedCounts(line: string)
    requires Contains(line, "disconnected") && Contains(line, "wlan")
    ensures ConnectedLine(line)
  {
    assert "disconnected" == "dis" + "connected";
    ContainsTail(line, "dis", "connected");
  }

  /** The loop of isConnectedLinux over the output lines. */
  method ScanConnected(lines: seq<string>) returns (connected: bool)
    ensures connected == WlanConnected(lines)
  {
    var k := 0;
    while k < |lines|
      invariant 0 <= k <= |lines|
      invariant forall j :: 0 <= j < k ==> !ConnectedLine(lines[j])
    {
      if Contains(lines[k], "connected") && Contains(lines[k], "wlan") {
        return true;
      }
      k := k + 1;
    }
    return false;
  }

  predicate IsWlanLine(line: string) {
    Contains(line, "wlan") || Contains(line, "wlp")
  }

  predicate InetLine(line: string) {
    Contains(line, "inet ") && |Fields(line)| >= 2
  }

  /** "192.168.1.5/24" gives "192.168.1.5": everything before the first '/'. */
  function StripPrefixLength(addr: string): (r: string)
    ensures '/' !in r
    ensures r == addr[..IndexOf(addr, '/')]
  {
    SplitFirst(addr, '/');
    Split(addr, '/')[0]
  }

  /**
   * getIPAddressLinux's scan: a line naming a wlan/wlp interface sets the
   * flag, and the first later address line (one that does not itself name
   * such an interface) gives the address without its prefix length.
   */
  function LinuxIP(lines: seq<string>, inWlan: bool): Option<string>
    decreases |lines|
  {
    if lines == [] then None
    else if IsWlanLine(lines[0]) then LinuxIP(lines[1..], true)
    else if inWlan && InetLine(lines[0]) then Some(StripPrefixLength(Fields(lines[0])[1]))
    else LinuxIP(lines[1..], inWlan)
  }

  /** Line `j` yields the address: it is an address line and some earlier line (or the flag) marked a wlan interface. */
  predicate LinuxHit(lines: seq<string>, inWlan: bool, j: nat)
    requires j < |lines|
  {
    !IsWlanLine(lines[j]) && InetLine(lines[j])
    && (inWlan || exists i :: 0 <= i < j && IsWlanLine(lines[i]))
  }

  lemma {:induction false} LinuxHitShift(lines: seq<string>, inWlan: bool, j: nat)
    requires 0 < j < |lines|
    ensures LinuxHit(lines, inWlan, j) <==> LinuxHit(lines[1..], inWlan || IsWlanLine(lines[0]), j - 1)
  {
    var tail := lines[1..];
    if exists i :: 0 <= i < j && IsWlanLine(lines[i]) {
      var i :| 0 <= i < j && IsWlanLine(lines[i]);
      if i > 0 {
        assert tail[i - 1] == lines[i];
      }
    }
    if exists i :: 0 <= i < j - 1 && IsWlanLine(tail[i]) {
      var i :| 0 <= i < j - 1 && IsWlanLine(tail[i]);
      assert lines[i + 1] == tail[i];
    }
  }

  /**
   * The flag is never cleared: the address comes from the first line that
   * follows any wlan line, however many other lines lie between.
   */
  lemma {:induction false} LinuxIPIsFirstHit(lines: seq<string>, inWlan: bool, j: nat)
    requires j < |lines| && LinuxHit(lines, inWlan, j)
    requires forall k :: 0 <= k < j ==> !LinuxHit(lines, inWlan, k)
    ensures LinuxIP(lines, inWlan) == Some(StripPrefixLength(Fields(lines[j])[1]))
    decreases j
  {
    if j > 0 {
      var w := inWlan || IsWlanLine(lines[0]);
      LinuxHitShift(lines, inWlan, j);
      forall k | 0 <= k < j - 1
        ensures !LinuxHit(lines[1..], w, k)
      {
        LinuxHitShift(lines, inWlan, k + 1);
      }
      if !IsWlanLine(lines[0]) && inWlan && InetLine(lines[0]) {
        assert LinuxHit(lines, inWlan, 0);
      }
      LinuxIPIsFirstHit(lines[1..], w, j - 1);
    }
  }

  lemma {:induction false} LinuxIPNone(lines: seq<string>, inWlan: bool)
    ensures LinuxIP(lines, inWlan).None? <==> forall j :: 0 <= j < |lines| ==> !LinuxHit(lines, inWlan, j)
    decreases |lines|
  {
    if lines != [] {
      var w := inWlan || IsWlanLine(lines[0]);
      LinuxIPNone(lines[1..], w);
      forall j | 0 < j < |lines|
        ensures LinuxHit(lines, inWlan, j) <==> LinuxHit(lines[1..], w, j - 1)
      {
        LinuxHitShift(lines, inWlan, j);
      }
      if LinuxIP(lines, inWlan).None? {
        forall j | 0 <= j < |lines|
          ensures !LinuxHit(lines, inWlan, j)
        {
          if j > 0 {
            assert !LinuxHit(lines[1..], w, j - 1);
          }
        }
      } else if !IsWlanLine(lines[0]) && inWlan && InetLine(lines[0]) {
        assert LinuxHit(lines, inWlan, 0);
      } else {
        var j :| 0 <= j < |lines[1..]| && LinuxHit(lines[1..], w, j);
        assert LinuxHit(lines, inWlan, j + 1);
      }
    }
  }

  /** The loop of getIPAddressLinux, with its mutable inWlan flag. */
  method ScanLinuxIP(lines: seq<string>) returns (ip: Option<string>)
    ensures ip == LinuxIP(lines, false)
  {
    var inWlan := false;
    var k := 0;
    while k < |lines|
      invariant 0 <= k <= |lines|
      invariant LinuxIP(lines, false) == LinuxIP(lines[k..], inWlan)
    {
      assert lines[k..][1..] == lines[k + 1..];
      var line := lines[k];
      if Contains(line, "wlan") || Contains(line, "wlp") {
        inWlan := true;
      } else if inWlan && Contains(line, "inet ") {
        var parts := Fields(line);
        if |parts| >= 2 {
          var ip := Split(parts[1], '/')[0];
          return Some(ip);
        }
      }
      k := k + 1;
    }
    return None;
  }

  // ---- Windows ----

  /** The exact text, with its run of spaces, that the Windows checks search for. */
  const WindowsConnected := "State                  : connected"
  const WindowsStarted := "Status                 : Started"

  predicate WindowsCandidate(line: string) {
    Contains(line, "IPv4 Address") && |Split(line, ':')| >= 2
  }

  /** getIPAddressWindows's scan: the trimmed second ':'-piece of the first IPv4 line that has one. */
  function WindowsIP(lines: seq<string>): Option<string>
    decreases |lines|
  {
    if lines == [] then None
    else if WindowsCandidate(lines[0]) then Some(TrimSpace(Split(lines[0], ':')[1]))
    else WindowsIP(lines[1..])
  }

  /**
   * The address is the trimmed text between the first and the second ':' of
   * the first "IPv4 Address" line that has a ':' at all.
   */
  lemma {:induction false} WindowsIPIsFirstMatch(lines: seq<string>, i: nat)
    requires i < |lines| && Contains(lines[i], "IPv4 Address") && ':' in lines[i]
    requires forall j :: 0 <= j < i ==> !(Contains(lines[j], "IPv4 Address") && ':' in lines[j])
    ensures var line := lines[i];
      var rest := line[IndexOf(line, ':') + 1..];
      WindowsIP(lines) == Some(TrimSpace(rest[..IndexOf(rest, ':')]))
    decreases i
  {
    SplitCount(lines[i], ':');
    if i > 0 {
      SplitCount(lines[0], ':');
      WindowsIPIsFirstMatch(lines[1..], i - 1);
    } else {
      SplitSecond(lines[0], ':');
    }
  }

  lemma {:induction false} WindowsIPNone(lines: seq<string>)
    ensures WindowsIP(lines).None? <==>
      forall i :: 0 <= i < |lines| ==> !(Contains(lines[i], "IPv4 Address") && ':' in lines[i])
    decreases |lines|
  {
    if lines != [] {
      SplitCount(lines[0], ':');
      WindowsIPNone(lines[1..]);
      assert forall i :: 1 <= i < |lines| ==> lines[i] == lines[1..][i - 1];
    }
  }

  /** The loop of getIPAddressWindows over the output lines. */
  method ScanWindowsIP(lines: seq<string>) returns (ip: Option<string>)
    ensures ip == WindowsIP(lines)
  {
    var k := 0;
    while k < |lines|
      invariant 0 <= k <= |lines|
      invariant WindowsIP(lines) == WindowsIP(lines[k..])
    {
      assert lines[k..][1..] == lines[k + 1..];
      if Contains(lines[k], "IPv4 Address") {
        var parts := Split(lines[k], ':');
        if |parts| >= 2 {
          return Some(TrimSpace(parts[1]));
        }
      }
      k := k + 1;
    }
    return None;
  }

  // ---- The platform dispatch of HotspotManager ----

  /** IsConnectedToWiFi */
  function IsConnectedToWiFi(platform: string, run: Run): (r: Result<bool, string>)
    ensures platform !in {"darwin", "linux", "windows"} ==> r == Err(Unsupported(platform))
    ensures platform == "darwin" ==> r == Ok(MacConnected(run))
    ensures platform == "linux" && run(LinuxDevices).err.None? ==>
      r == Ok(WlanConnected(Lines(run(LinuxDevices).output)))
    ensures platform == "windows" && run(WindowsInterfaces).err.None? ==>
      r == Ok(Contains(run(WindowsInterfaces).output, WindowsConnected))
    ensures platform in {"linux", "windows"} && r.Err? ==>
      r.error == (if platform == "linux" then run(LinuxDevices) else run(WindowsInterfaces)).err.value
  {
    if platform == "darwin" then Ok(MacConnected(run))
    else if platform == "linux" then
      var out := run(LinuxDevices);
      if out.err.Some? then Err(out.err.value) else Ok(WlanConnected(Lines(out.output)))
    else if platform == "windows" then
      var out := run(WindowsInterfaces);
      if out.err.Some? then Err(out.err.value) else Ok(Contains(out.output, WindowsConnected))
    else Err(Unsupported(platform))
  }

  /**
   * EnableHotspot: on macOS only instructions and an AppleScript attempt,
   * never an error; on Linux one nmcli command; on Windows the hosted
   * network is configured and then started, and the first failure is
   * reported.
   */
  function EnableHotspot(platform: string, ssid: string, password: string, run: Run): (r: Result<(), string>)
    ensures platform !in {"darwin", "linux", "windows"} ==> r == Err(Unsupported(platform))
    ensures platform == "darwin" ==> r == Ok(())
    ensures platform == "linux" ==> (r.Ok? <==> run(LinuxEnable(ssid, password)).err.None?)
    ensures platform == "windows" ==>
      (r.Ok? <==> run(WindowsSet(ssid, password)).err.None? && run(WindowsStart).err.None?)
    ensures platform == "windows" && run(WindowsSet(ssid, password)).err.Some? ==>
      r.Err? && HasPrefix(r.error, "failed to configure hotspot: ")
  {
    if platform == "darwin" then Ok(())
    else if platform == "linux" then
      var out := run(LinuxEnable(ssid, password));
      if out.err.Some? then Err("failed to enable hotspot: " + out.err.value + "\nOutput: " + out.output)
      else Ok(())
    else if platform == "windows" then
      var configured := run(WindowsSet(ssid, password));
      if configured.err.Some? then Err("failed to configure hotspot: " + configured.err.value + "\nOutput: " + configured.output)
      else
        var start := run(WindowsStart);
        if start.err.Some? then Err("failed to start hotspot: " + start.err.value + "\nOutput: " + start.output)
        else Ok(())
    else Err(Unsupported(platform))
  }

  /** DisableHotspot: fails exactly when the platform's stop command fails. */
  function DisableHotspot(platform: string, run: Run): (r: Result<(), string>)
    ensures platform !in {"darwin", "linux", "windows"} ==> r == Err(Unsupported(platform))
    ensures platform == "darwin" ==> (r.Ok? <==> run(MacDisableSharing).err.None?)
    ensures platform == "linux" ==> (r.Ok? <==> run(LinuxDisable).err.None?)
    ensures platform == "windows" ==> (r.Ok? <==> run(WindowsStop).err.None?)
  {
    if platform == "darwin" then
      var out := run(MacDisableSharing);
      if out.err.Some? then Err("failed to disable Internet Sharing: " + out.err.value) else Ok(())
    else if platform == "linux" then
      var out := run(LinuxDisable);
      if out.err.Some? then Err("failed to disable hotspot: " + out.err.value) else Ok(())
    else if platform == "windows" then
      var out := run(WindowsStop);
      if out.err.Some? then Err("failed to stop hotspot: " + out.err.value) else Ok(())
    else Err(Unsupported(platform))
  }

  /**
   * GetHotspotStatus: substring tests on the status output. On macOS a
   * failing `defaults read` means "not enabled", never an error.
   */
  function GetHotspotStatus(platform: string, run: Run): (r: Result<bool, string>)
    ensures platform !in {"darwin", "linux", "windows"} ==> r == Err(Unsupported(platform))
    ensures platform == "darwin" ==>
      r == Ok(run(MacStatus).err.None? && Contains(run(MacStatus).output, "1"))
    ensures platform == "linux" && run(LinuxActive).err.None? ==>
      r == Ok(Contains(run(LinuxActive).output, "Hotspot"))
    ensures platform == "windows" && run(WindowsHosted).err.None? ==>
      r == Ok(Contains(run(WindowsHosted).output, WindowsStarted))
    ensures platform == "linux" && run(LinuxActive).err.Some? ==> r == Err(run(LinuxActive).err.value)
    ensures platform == "windows" && run(WindowsHosted).err.Some? ==> r == Err(run(WindowsHosted).err.value)
  {
    if platform == "darwin" then
      var out := run(MacStatus);
      if out.err.Some? then Ok(false) else Ok(Contains(out.output, "1"))
    else if platform == "linux" then
      var out := run(LinuxActive);
      if out.err.Some? then Err(out.err.value) else Ok(Contains(out.output, "Hotspot"))
    else if platform == "windows" then
      var out := run(WindowsHosted);
      if out.err.Some? then Err(out.err.value) else Ok(Contains(out.output, WindowsStarted))
    else Err(Unsupported(platform))
  }

  /** The command each platform reads its address from. */
  function IPCommand(platform: string): Command {
    if platform == "darwin" then MacBridgeAddr
    else if platform == "linux" then LinuxAddr
    else Ipconfig
  }

  /** The line scan each platform applies to that command's output. */
  function ScanIP(platform: string, lines: seq<string>): Option<string> {
    if platform == "darwin" then MacIP(lines)
    else if platform == "linux" then LinuxIP(lines, false)
    else WindowsIP(lines)
  }

  /**
   * GetIPAddress: a failing command is reported as its error; otherwise the
   * platform's scan gives the address, or "no IP address found".
   */
  function GetIPAddress(platform: string, run: Run): (r: Result<string, string>)
    ensures platform !in {"darwin", "linux", "windows"} ==> r == Err(Unsupported(platform))
    ensures platform in {"darwin", "linux", "windows"} ==>
      var out := run(IPCommand(platform));
      && (out.err.Some? ==> r == Err(out.err.value))
      && (out.err.None? && ScanIP(platform, Lines(out.output)).None? ==> r == Err(NoIPFound))
      && (out.err.None? && ScanIP(platform, Lines(out.output)).Some? ==>
           r == Ok(ScanIP(platform, Lines(out.output)).value))
  {
    if platform !in {"darwin", "linux", "windows"} then Err(Unsupported(platform))
    else
      var out := run(IPCommand(platform));
      if out.err.Some? then Err(out.err.value)
      else match ScanIP(platform, Lines(out.output))
        case None => Err(NoIPFound)
        case Some(ip) => Ok(ip)
  }

  /** On Linux the address never carries a "/prefix" length. */
  lemma LinuxAddressHasNoPrefix(run: Run)
    requires GetIPAddress("linux", run).Ok?
    ensures '/' !in GetIPAddress("linux", run).value
  {
    var out := run(LinuxAddr);
    LinuxIPHasNoSlash(Lines(out.output), false);
  }

  lemma {:induction false} LinuxIPHasNoSlash(lines: seq<string>, inWlan: bool)
    ensures LinuxIP(lines, inWlan).Some? ==> '/' !in LinuxIP(lines, inWlan).value
    decreases |lines|
  {
    if lines != [] {
      LinuxIPHasNoSlash(lines[1..], inWlan || IsWlanLine(lines[0]));
      LinuxIPHasNoSlash(lines[1..], inWlan);
    }
  }
}

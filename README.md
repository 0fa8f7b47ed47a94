# IS_ITTP_Shell core in Dafny

This project models the core of the IPTP shell ("intention-process"
shell). The shell gives each working session a name taken from a
natural-language intention such as "working on auth". It keeps each named
process's current directory, navigation history and pulses in a state table.
It also navigates with `goto`, `jump`, `back` and `getmethere`. The
repository adds four more pieces, which are modelled too:
- a DNS router that forwards queries upstream and keeps an audit buffer of
  the last 1000 queries;
- a hotspot manager that reads the output of the platform's network
  commands;
- a hotspot shell that drives both from `dns` and `hotspot` commands;
- a small Node moderation proxy that checks signed intentions, scores
  payloads for flag words and holds suspicious ones in quarantine.

One module per source file:

| module | file | form |
|---|---|---|
| `DnsRouter` | `dnsrouting/dns_router.go` | class `Router` with its query buffer, plus pure functions for the log path, the recorded response and the buffer window |
| `ProcessState` | `iptp-go/guide/xplainstate.go` | class `State` over a `map`, specified by the pure table functions `SetIn`, `UpdateIn` and `PopIn` |
| `Names` | `iptp-go/utils.go` | pure functions: `Sanitize`, `ParseIntention` (the regular expressions as leftmost searches), `FormatPath` |
| `IptpCommands` | `iptp-go/commands.go` | exit-code dispatch as a function, `ExecuteCommand` and `JoinArgs` as methods |
| `DnsCommands` | `dnsrouting/commands.go` | exit-code dispatch and the `sh -c` / `cmd /C` command line |
| `Exec` | `iptp-go/exec.go` | `containsPathSep` and the child environment |
| `Hotspot` | `dnsrouting/hotspot.go` | platform dispatch, and the output parsers as loops proved against functions |
| `Options` | `hotspotdnsrouting/shell.go` | the `--flag value` option loop shared by `dns start`, `hotspot enable` and `hotspot auto` |
| `Navigation` | `iptp-go/shell.go` | the shell state `Nav` and one step function per command |
| `IptpShell` | `iptp-go/shell.go` | class `Shell`, whose commands perform the `Navigation` steps in place |
| `HotspotShell` | `hotspotdnsrouting/shell.go` | class `Shell` holding an `IptpShell.Shell` and a `DnsRouter.Router` |
| `Moderation` | `intention-proxy-server/server.js` | middleware, classifier and queue transitions as functions; class `Proxy` holding the queues |

Some modules model library code the source calls:
- `Text` models Go's `strings` functions;
- `Paths` models `path/filepath.Clean` and `Join` (also used for Node's `path.join`);
- `HostEnv` models the host values of the command-line mode;
- `Wrappers` holds `Option` and `Result`.

Values from outside the program are parameters:
- the clock, the process id and the random ids;
- the working directory and the outcome of changing it;
- standard input, as a sequence of lines;
- the output of external commands.

The code the source calls but does not contain is given as function values:
- JSON text, SHA-256 and HMAC;
- the directory searches of `utils.go`;
- running an external command.

The hotspot shell's package has its own copies of the state, the intention
parser and `ExecuteScript`, and those copies are not part of this model. The
model uses the iptp-go state and parser, and the `ExecuteScript` of
`dnsrouting/commands.go`, for them.

## Model

| member | source | states |
|---|---|---|
| `DnsRouter.LogPath` | dnsrouting/dns_router.go:53-66 | `/tmp/iptp_dns_queries.log` on every platform but windows; on windows `TEMP`, a backslash and the file name, or the bare file name when `TEMP` is empty (no path cleaning, see Left out) |
| `DnsRouter.FirstAddress` | dnsrouting/dns_router.go:99-112 | None iff the answer section has no A or AAAA record; otherwise the address of the first such record in answer order |
| `DnsRouter.ResponseOf` | dnsrouting/dns_router.go:89-112 | the recorded response is FAILED for a failed exchange, NO_ANSWER without an address record, and otherwise the first A/AAAA address in answer order |
| `DnsRouter.ServFailReply` | dnsrouting/dns_router.go:70-93 | the reply to a failed exchange answers the same id, is a response, is authoritative, carries SERVFAIL, copies the first question and has no answers |
| `DnsRouter.Window` | dnsrouting/dns_router.go:136-141 | the buffer kept is the last min(n, 1000) records, oldest first |
| `DnsRouter.WindowAppend` | dnsrouting/dns_router.go:136-141 | appending to the window and trimming again gives the window of the whole extended log, so the buffer always holds the most recent 1000 records |
| `DnsRouter.AppendEvictsOldest` | dnsrouting/dns_router.go:136-141 | one append puts the new record last; below 1000 nothing is dropped, and at 1000 exactly the oldest record is dropped and the others keep their order |
| `DnsRouter.RecentQueries` | dnsrouting/dns_router.go:217-230 | (corrected) the last min(count, len) records in order, and none for count ≤ 0 |
| `DnsRouter.NegativeCountPanics` | dnsrouting/dns_router.go:221-229 | for every negative count the slice as written is out of range (a run-time panic), and the corrected function answers with no records |
| `DnsRouter.RecentQueriesAgree` | dnsrouting/dns_router.go:217-230 | for every count ≥ 0 the corrected function returns exactly what the code as written returns |
| `DnsRouter.DomainsOfMembers` | dnsrouting/dns_router.go:237-240 | a domain is in the set counted as `unique_domains` iff some buffered record has it |
| `DnsRouter.StatsExample` | dnsrouting/dns_router.go:237-244 | the queries a.com, b.com, a.com count three queries and two distinct domains |
| `DnsRouter.Router.constructor` | dnsrouting/dns_router.go:40-50 | a new router is stopped, has no listener and no records, keeps its two addresses, and logs to the platform's log path |
| `DnsRouter.Router.LogQuery` | dnsrouting/dns_router.go:122-153 | the record is appended to the lifetime log and the buffer becomes the window of the old buffer plus the record. A log file that cannot be opened still keeps the in-memory append. Running state is untouched |
| `DnsRouter.Router.HandleRequest` | dnsrouting/dns_router.go:69-119 | exactly one record (time, client address, first question's name and type, or empty strings, the response above, the upstream server) is logged; the in-memory window becomes the last 1000 records with it appended; it reaches the log file exactly when the file opens; the client gets the upstream reply, or the SERVFAIL reply when the exchange failed |
| `DnsRouter.Router.Start` | dnsrouting/dns_router.go:156-189 | while running it is refused and the router stays running; otherwise the router runs with a listener; the buffer is untouched |
| `DnsRouter.Router.ServeFailed` | dnsrouting/dns_router.go:176-182 | a listener that cannot serve marks the router stopped and keeps the listener object |
| `DnsRouter.Router.Stop` | dnsrouting/dns_router.go:192-207 | refused while stopped; with a listener it stops and returns Shutdown's error; without one it reports success and changes nothing |
| `DnsRouter.Router.IsRunning` | dnsrouting/dns_router.go:210-214 | the running flag |
| `DnsRouter.Router.GetRecentQueries` | dnsrouting/dns_router.go:217-230 | the last min(count, len) buffered records in order, none for count ≤ 0 |
| `DnsRouter.Router.GetStats` | dnsrouting/dns_router.go:233-250 | `total_queries` is the buffer length (at most 1000, not a lifetime total), `unique_domains` the number of distinct domains in it, and the configuration as set |
| `ProcessState.SetIn` | iptp-go/guide/xplainstate.go:67-86 | the entry holds the intention, the directory, the pid, the time and exactly the two pulses ("process named", Y, name) and ("directory saved", Y, dir). It keeps the history of an existing entry and starts an empty one otherwise. No other entry changes |
| `ProcessState.UpdateIn` | iptp-go/guide/xplainstate.go:89-110 | an unknown name is SetIn with intention "Working in <name>". For a known name the old directory is pushed only when it is non-empty and differs from the new one, the directory and pulses are replaced, and the intention is kept. No other entry changes |
| `ProcessState.PopIn` | iptp-go/guide/xplainstate.go:128-140 | for an unknown process or an empty history it returns ("", false) with the table unchanged. Otherwise it returns the last history entry and removes exactly that one |
| `ProcessState.UpdateThenPop` | iptp-go/guide/xplainstate.go:97-139 | a pop right after an UpdateDirectory that pushed `oldDir` returns `oldDir` and restores the previous history |
| `ProcessState.SaveKeepsHistory` | iptp-go/guide/xplainstate.go:97-100 | an update with an empty old directory never extends the history |
| `ProcessState.PopShrinks` | iptp-go/guide/xplainstate.go:134-138 | a successful pop shortens the history by exactly one |
| `ProcessState.State.constructor` | iptp-go/guide/xplainstate.go:33-38 | a new state has no processes |
| `ProcessState.State.SetProcess` | iptp-go/guide/xplainstate.go:67-86 | the map becomes SetIn of the old map |
| `ProcessState.State.UpdateDirectory` | iptp-go/guide/xplainstate.go:89-110 | the map becomes UpdateIn of the old map |
| `ProcessState.State.GetProcess` | iptp-go/guide/xplainstate.go:113-116 | found iff the name is a key, and then the stored entry |
| `ProcessState.State.ListProcesses` | iptp-go/guide/xplainstate.go:119-125 | every key exactly once (no duplicates, as many names as keys), in no promised order |
| `ProcessState.State.PopHistory` | iptp-go/guide/xplainstate.go:128-140 | the result and the new map are those of PopIn |
| `Names.Sanitize` | iptp-go/utils.go:60-73 | the result is never empty, holds only `[A-Za-z0-9_-]`, and neither starts nor ends with `_` |
| `Names.Unnamed` | iptp-go/utils.go:68-70 | the fallback "unnamed" is itself a valid process name |
| `Names.TrimUnderscores` | iptp-go/utils.go:66 | `strings.Trim(name, "_")` leaves no `_` at either end and keeps the allowed alphabet |
| `Names.ReplaceRunsAllowed` | iptp-go/utils.go:62-63 | after the replacement only `[A-Za-z0-9_-]` remains |
| `Names.ReplaceRunsKeepsNames` | iptp-go/utils.go:62-63 | a string of allowed characters is left as it is |
| `Names.ReplaceRunsOfRun` | iptp-go/utils.go:62-63 | a maximal run of other characters between allowed ones becomes one `_` |
| `Names.RunAtStart` | iptp-go/utils.go:62-63 | a leading run of other characters becomes one `_` |
| `Names.SkipDropsDisallowed` | iptp-go/utils.go:62-63 | the characters a run swallows are all outside the allowed set |
| `Names.SanitizeKeepsNames` | iptp-go/utils.go:60-73 | a valid process name is returned unchanged |
| `Names.SanitizeIdempotent` | iptp-go/utils.go:60-73 | sanitizing twice equals sanitizing once |
| `Names.ParseIntention` | iptp-go/utils.go:12-57 | every branch ends in Sanitize, so the result is a valid process name |
| `Names.FirstMatch` | iptp-go/utils.go:20-50 | no pattern list gives none; when the first pattern matches, its group |
| `Names.FirstMatchNone` | iptp-go/utils.go:20-50 | nothing is found exactly when no pattern of the list matches |
| `Names.FirstMatchFirst` | iptp-go/utils.go:20-50 | the first pattern that matches gives the group, whatever the later patterns would give |
| `Names.FirstMatchFrom` | iptp-go/utils.go:20-50 | a group found comes from a matching pattern with no earlier pattern matching |
| `Names.IntentionFirstPattern` | iptp-go/utils.go:15-50 | in a multi-word intention the first of the five patterns that matches names the process: its group sanitized, or the group itself when it already is a process name |
| `Names.IntentionLastWord` | iptp-go/utils.go:15-54 | a multi-word intention that no pattern matches has at least one field, and its last field, sanitized (unchanged when already a process name), names the process |
| `Names.WantToWorkExample` | iptp-go/utils.go:20-36 | " i want to work on x" names the process "x": the first two patterns do not occur and the third gives "x" |
| `Names.ActivityExample` | iptp-go/utils.go:39-42 | " fixing bug" names the process "bug" through the activity pattern |
| `Names.SessionExample` | iptp-go/utils.go:45-48 | " a session" names the process "a" through `(.+) session` |
| `Names.LastWordExample` | iptp-go/utils.go:20-54 | " a b" matches no pattern and is named by its last word "b" |
| `Names.SingleWordIntention` | iptp-go/utils.go:13-18 | a trimmed intention without a space is only sanitized, so a single word that is already a process name (`name auth`) names the process itself |
| `Names.FirstTailFinds` | iptp-go/utils.go:21-42 | a `(head)(.+)` pattern matches whenever one of its heads occurs, in any case, with more of its line after it |
| `Names.WorkingPhraseDecides` | iptp-go/utils.go:20-54 | the patterns are tried in order, not by position: once "working in/on" occurs, one of the first two patterns names the process, and the activity words, "session" and the last-word fallback are never consulted |
| `Names.FormatPath` | iptp-go/utils.go:189-200 | with the home directory as a string prefix the path is "~" followed by the rest; otherwise, or without a home directory, it is unchanged |
| `Names.FormatPathIsPlainPrefix` | iptp-go/utils.go:195-197 | the prefix test is on characters, not path components: /home/alicex under /home/alice shows as ~x |
| `HostEnv.ShellName` | dnsrouting/commands.go:46 | the default process name is "shell_" followed by the pid in fmt's %d form |
| `HostEnv.ShellNamePid` | dnsrouting/commands.go:46 | reading the part after "shell_" with %d gives back the pid, for any 64-bit pid |
| `HostEnv.ShellNameInjective` | dnsrouting/commands.go:46 | two different 64-bit pids give two different default process names |
| `IptpCommands.CurrentProcess` | iptp-go/commands.go:19-22 | `$iptp_PROCESS` when set and non-empty, else shell_<pid> |
| `IptpCommands.GotoIn` | iptp-go/commands.go:51-71 | no path or a failed chdir gives exit 1 and no change; otherwise exit 0 and UpdateIn with the directory left as old directory |
| `IptpCommands.NameIn` | iptp-go/commands.go:73-94 | always exit 0; without arguments no change; otherwise SetIn(ParseIntention(j), j, cwd) with j the joined arguments |
| `IptpCommands.Execute` | iptp-go/commands.go:10-49 | no arguments exit 0. An unknown command exits 1. help/version/list exit 0. jump exits 0 iff a name is given and known. state exits 0 iff the current process is known. Only goto, name and save can change the table |
| `IptpCommands.SaveKeepsHistoryLength` | iptp-go/commands.go:96-103 | `save` exits 0 and never extends the history |
| `IptpCommands.GotoThenPop` | iptp-go/commands.go:51-71 | after a `goto` that changes directory, popping the process's history yields the directory it left |
| `IptpCommands.JoinArgs` | iptp-go/commands.go:199-208 | the loop's result is the arguments separated by single spaces |
| `IptpCommands.JoinArgsRoundTrip` | iptp-go/commands.go:199-208 | splitting the joined arguments at spaces gives them back when none contains a space |
| `IptpCommands.ExecuteCommand` | iptp-go/commands.go:10-49 | the exit code and the new table are those of Execute |
| `DnsCommands.GotoIn` | dnsrouting/commands.go:33-52 | no path or a failed chdir gives exit 1 and no change; otherwise exit 0, and the new directory is recorded for shell_<pid> with no old directory, so the history is never extended |
| `DnsCommands.Execute` | dnsrouting/commands.go:11-30 | no arguments exit 0, `version` exits 0, `goto` is GotoIn, and every other word exits 1 and changes nothing |
| `DnsCommands.ExecuteCommand` | dnsrouting/commands.go:11-52 | the exit code and the new table are those of Execute |
| `DnsCommands.ScriptFor` | dnsrouting/commands.go:55-86 | (as written) nothing runs for no words; otherwise the command is `sh -c` (`cmd /C` on windows) followed by all the words, and the environment is the parent's plus IPTP_SHELL=true and IPTP_PID=<pid> |
| `DnsCommands.ScriptCommand` | dnsrouting/commands.go:55-86 | the command line and environment built step by step are those of ScriptFor |
| `DnsCommands.ShDropsArguments` | dnsrouting/commands.go:67-78 | with two words or more, `sh -c` runs only the first word, whereas `cmd /C` runs them all |
| `DnsCommands.FixedScript` | dnsrouting/commands.go:55-86 | (corrected) the platform shell runs every word in order; same program and environment |
| `Exec.ContainsPathSep` | iptp-go/exec.go:69-74 | true iff the first character is '.' or the platform separator ('/', or '\\' on windows); it needs a non-empty path |
| `Exec.OnlyFirstCharacter` | iptp-go/exec.go:71-73 | only the first character is examined |
| `Exec.SeparatorInsideIgnored` | iptp-go/exec.go:69-74 | "bin/tool" has no separator by this test, while "./script.sh" and "/usr/bin/env" do; on windows "\\tools\\a.exe" does and "/usr/bin/env" does not |
| `Exec.ScriptCommand` | iptp-go/exec.go:11-27 | nothing for no words; otherwise the first word runs with the others as arguments, with the parent environment plus GOBASH_SHELL=1 and, only when the working directory is known, GOBASH_CWD=<cwd> |
| `Hotspot.IsConnectedMac` | dnsrouting/hotspot.go:94-118 | the loop over en0..en3 answers connected iff one probe succeeds with non-blank output |
| `Hotspot.MacIPIsFirstMatch` | dnsrouting/hotspot.go:193-203 | the Mac address is the second field of the first line containing "inet " with at least two fields |
| `Hotspot.MacIPNone` | dnsrouting/hotspot.go:193-203 | no address iff no line qualifies |
| `Hotspot.ScanMacIP` | dnsrouting/hotspot.go:193-203 | the line loop returns the address MacIP defines |
| `Hotspot.DisconnectedCounts` | dnsrouting/hotspot.go:215-222 | a "disconnected" wlan line counts as connected, because the test is on substrings |
| `Hotspot.ScanConnected` | dnsrouting/hotspot.go:215-222 | the loop answers true iff some line contains both "connected" and "wlan" |
| `Hotspot.StripPrefixLength` | dnsrouting/hotspot.go:283 | the address is the part before the first '/', and has no '/' |
| `Hotspot.LinuxIPIsFirstHit` | dnsrouting/hotspot.go:273-289 | the Linux address is that of the first "inet " line with two fields after some line mentioning wlan or wlp; the flag, once set, is never cleared |
| `Hotspot.LinuxIPNone` | dnsrouting/hotspot.go:273-289 | no address iff no line qualifies |
| `Hotspot.ScanLinuxIP` | dnsrouting/hotspot.go:273-289 | the loop with its mutable `inWlan` flag returns the address LinuxIP defines |
| `Hotspot.LinuxIPHasNoSlash` | dnsrouting/hotspot.go:283-284 | a Linux address never carries a "/prefix" |
| `Hotspot.WindowsIPIsFirstMatch` | dnsrouting/hotspot.go:356-366 | the Windows address is the trimmed text between the first and second ':' of the first line containing "IPv4 Address" and a ':' |
| `Hotspot.WindowsIPNone` | dnsrouting/hotspot.go:356-366 | no address iff no line qualifies |
| `Hotspot.ScanWindowsIP` | dnsrouting/hotspot.go:356-366 | the loop returns the address WindowsIP defines |
| `Hotspot.IsConnectedToWiFi` | dnsrouting/hotspot.go:23-34 | unsupported-platform error off darwin/linux/windows; the Mac probes; on linux the wlan line test and on windows the "State : connected" substring, or the command's error |
| `Hotspot.EnableHotspot` | dnsrouting/hotspot.go:37-48 | unsupported-platform error off the three platforms. On darwin it always succeeds. On linux it succeeds iff nmcli does. On windows it succeeds iff both netsh commands do, and a failed configure step is the error |
| `Hotspot.DisableHotspot` | dnsrouting/hotspot.go:51-62 | unsupported-platform error off the three platforms; otherwise it succeeds iff the platform's stop command does |
| `Hotspot.GetHotspotStatus` | dnsrouting/hotspot.go:65-76 | unsupported-platform error off the three platforms. The status tests are substrings: "1" on darwin (a read error means not enabled), "Hotspot" on linux, "Status                 : Started" on windows. A linux or windows command error is returned |
| `Hotspot.GetIPAddress` | dnsrouting/hotspot.go:79-90 | unsupported-platform error off the three platforms; otherwise the command's error, the parser's address, or "no IP address found" |
| `Hotspot.LinuxAddressHasNoPrefix` | dnsrouting/hotspot.go:265-290 | an address GetIPAddress returns on linux has no "/prefix" |
| `Options.ParseOptions` | hotspotdnsrouting/shell.go:510-523 | the index loop's result is that of Scan over the arguments |
| `Options.NoFlagsKeepsDefaults` | hotspotdnsrouting/shell.go:507-523 | without any recognised flag the defaults stay |
| `Options.LastFlagWins` | hotspotdnsrouting/shell.go:510-523 | over flag/value pairs each setting is the value of its last flag, or its default |
| `Options.DanglingFlagIgnored` | hotspotdnsrouting/shell.go:513-521 | a flag in final position with no value changes nothing |
| `Options.UnknownTokenSkipped` | hotspotdnsrouting/shell.go:510-523 | an unknown token is skipped and the scan goes on after it |
| `Options.DnsStartExample` | hotspotdnsrouting/shell.go:507-523 | `-l 127.0.0.1:5353 --listen 0.0.0.0:5300 -u` listens on 0.0.0.0:5300 and keeps upstream 8.8.8.8:53 |
| `Navigation.ReadLine` | iptp-go/shell.go:224 | ReadString takes the next line, or "" at the end of the input, and consumes at most one line |
| `Navigation.ParseCommand` | iptp-go/shell.go:88-129 | a line without fields is a no-op. The first field selects the command. A word that is not a builtin runs externally with all the fields. `dns`/`hotspot` exist only in the hotspot shell |
| `Navigation.Builtin` | iptp-go/shell.go:97-128 | `cd` and `goto` are the same command, `exit` and `quit` stop, and any word outside the switch runs externally with all the fields |
| `Navigation.Apply` | iptp-go/shell.go:97-128 | no command consumes input it does not read; only `exit`/`quit` touch the running flag; blank lines and external commands change nothing |
| `Navigation.ExpandTilde` | iptp-go/shell.go:174-183 | only a path starting with '~' and a known home directory is rewritten |
| `Navigation.TildeSlash` | iptp-go/shell.go:177-181 | "~/rest" becomes Join(home, rest) |
| `Navigation.TildeDropsNextChar` | iptp-go/shell.go:180 | the character after '~' is dropped whatever it is (one byte in Go, so this holds for ASCII characters, see Left out): "~x/a" expands like "~/a" |
| `Navigation.GotoTarget` | iptp-go/shell.go:160-198 | no target without arguments and without a home directory |
| `Navigation.GotoHomeByDefault` | iptp-go/shell.go:161-169 | without arguments cmdGoto targets the home directory |
| `Navigation.GotoWildcard` | iptp-go/shell.go:186-198 | a path with '*' is replaced by the fuzzy match; an error or an empty match aborts |
| `Navigation.GotoStep` | iptp-go/shell.go:160-212 | no target or a failed chdir changes nothing; otherwise the shell moves and the process remembers the directory it left; names, running flag and input never change |
| `Navigation.NameStep` | iptp-go/shell.go:132-157 | without arguments nothing changes. Otherwise both names become ParseIntention of the joined words, stored with the intention at the current directory |
| `Navigation.SaveStep` | iptp-go/shell.go:292-298 | the current directory is recorded with nothing pushed on the history; nothing else changes |
| `Navigation.JumpStep` | iptp-go/shell.go:317-346 | an unknown target or a failed chdir leaves names and state unchanged. Otherwise both names become the target, and the shell moves to its directory, which remembers the one left |
| `Navigation.BackStep` | iptp-go/shell.go:349-366 | with nothing to pop nothing changes; names, running flag and input never change |
| `Navigation.BackFailureStillPops` | iptp-go/shell.go:350-359 | a `back` whose chdir fails still removes the history entry |
| `Navigation.GotoThenBack` | iptp-go/shell.go:160-366 | `goto` then `back` returns to the directory left, with the history the process had before |
| `Navigation.Select` | iptp-go/shell.go:265-276 | "q"/"Q" cancels; a pick iff the answer scans as an integer from 1 to the number of directories, which picks that position |
| `Navigation.SelectShownNumber` | iptp-go/shell.go:270-276 | typing the number shown next to a directory picks that directory |
| `Navigation.SelectShownNumberTrimmed` | iptp-go/shell.go:262-276 | the same after the answer is trimmed |
| `Navigation.SelectOutOfRange` | iptp-go/shell.go:270-274 | 0 and numbers above the count are invalid |
| `Navigation.Search` | iptp-go/shell.go:234-243 | the search from the current directory decides when it finds something; otherwise the home directory is searched |
| `Navigation.GetMeThereStep` | iptp-go/shell.go:215-289 | only input is consumed and the names and running flag stay. The table changes only by recording the directory entered, with the directory left as old directory |
| `Navigation.AskStep` | iptp-go/shell.go:225-248 | the same guarantees once the directory name is read; a blank name ends the command |
| `Navigation.ChooseStep` | iptp-go/shell.go:245-263 | the same guarantees once the search is done; nothing found ends the command |
| `Navigation.PickStep` | iptp-go/shell.go:265-286 | a cancel or an invalid choice changes nothing; otherwise only the recorded move can change the table |
| `Navigation.PickEnters` | iptp-go/shell.go:276-285 | a valid pick of a directory that can be entered moves the shell there |
| `Navigation.GetMeThereReadsTwoLines` | iptp-go/shell.go:215-289 | a directory name, found directories and a valid pick move the shell to the directory picked and consume exactly two lines |
| `Navigation.GetMeThereExample` | iptp-go/shell.go:215-289 | answering a name and the number shown next to a local match enters that directory and consumes exactly those two lines |
| `Navigation.Step` | iptp-go/shell.go:88-129 | `exit`/`quit` only clear the running flag; blank lines and external commands leave the state unchanged; no command consumes input it does not read |
| `Navigation.RunFrom` | iptp-go/shell.go:48-65 | the loop ends with the shell stopped or the input used up |
| `Navigation.Session` | iptp-go/shell.go:42-68 | Run ends stopped or out of input, and any process it switched to is in the table |
| `Navigation.RunProcessKnown` | iptp-go/shell.go:48-65 | every process name the loop switches to is in the table |
| `Navigation.StepProcessKnown` | iptp-go/shell.go:88-129 | no command takes the shell to a process that is not in the table |
| `Navigation.ExitEndsRun` | iptp-go/shell.go:123-124 | `exit` ends the session at once; the lines after it are never read |
| `Navigation.ParseNetwork` | hotspotdnsrouting/shell.go:98-143 | the hotspot shell reads a line differently only for `dns` and `hotspot` |
| `Navigation.StepIgnoresNetwork` | hotspotdnsrouting/shell.go:98-143 | for every line the navigation step is the same in both shells |
| `IptpShell.ShellCounter.constructor` | iptp-go/shell.go:13 | the counter starts at 0 |
| `IptpShell.Shell.constructor` | iptp-go/shell.go:25-39 | the shell acts for shell_<pid>, shows itself as IPTP-<n> with n the incremented counter, and is running |
| `IptpShell.Shell.ReadString` | iptp-go/shell.go:53 | the line read and the remaining input are those of ReadLine |
| `IptpShell.Shell.CmdGoto` | iptp-go/shell.go:160-212 | the shell's new state is GotoStep of the old |
| `IptpShell.Shell.CmdName` | iptp-go/shell.go:132-157 | the shell's new state is NameStep of the old |
| `IptpShell.Shell.CmdSave` | iptp-go/shell.go:292-298 | the shell's new state is SaveStep of the old |
| `IptpShell.Shell.CmdJump` | iptp-go/shell.go:317-346 | the shell's new state is JumpStep of the old |
| `IptpShell.Shell.CmdBack` | iptp-go/shell.go:349-366 | the shell's new state is BackStep of the old |
| `IptpShell.Shell.CmdGetMeThere` | iptp-go/shell.go:215-289 | the shell's new state is GetMeThereStep of the old |
| `IptpShell.Shell.EnterSelection` | iptp-go/shell.go:265-288 | the shell's new state is PickStep of the old for the checked choice |
| `IptpShell.Shell.CmdExec` | iptp-go/shell.go:435-437 | the command started runs the fields given, with the GOBASH environment |
| `IptpShell.Shell.Dispatch` | iptp-go/shell.go:97-128 | the shell's new state is Apply of the old for the parsed command; a command is started iff it is external, with exactly its fields |
| `IptpShell.Shell.ExecuteCommand` | iptp-go/shell.go:88-129 | the new state is Step of the old; an external command is started iff the line parses as one, with exactly its fields |
| `IptpShell.Shell.Run` | iptp-go/shell.go:42-68 | the new state is Session of the old; the loop ends stopped or out of input |
| `HotspotShell.StartWhileRunning` | hotspotdnsrouting/shell.go:499-504 | `dns start` while the router runs changes nothing, whatever the options |
| `HotspotShell.RestartDropsRecords` | hotspotdnsrouting/shell.go:525-533 | `dns start` on a stopped router replaces it with a new one with the scanned options, so the buffered records are gone |
| `HotspotShell.DnsKeepsListener` | hotspotdnsrouting/shell.go:470-555 | a running router always has its listener, so `dns stop` always stops it |
| `HotspotShell.LogsCountOfNumber` | hotspotdnsrouting/shell.go:576-578 | `dns logs k` asks for k records |
| `HotspotShell.LogsCountDefault` | hotspotdnsrouting/shell.go:573-578 | without a number `dns logs` asks for 10 records |
| `HotspotShell.NegativeLogsCount` | hotspotdnsrouting/shell.go:572-580 | `dns logs -3` reaches GetRecentQueries with -3, where the slice as written panics |
| `HotspotShell.ConsentAnswers` | hotspotdnsrouting/shell.go:683-689 | the hotspot goes on only for y or yes, in any mix of cases, with spaces around |
| `HotspotShell.EmptyAnswerDeclines` | hotspotdnsrouting/shell.go:683-689 | an empty answer, which is what the end of the input gives, declines |
| `HotspotShell.HotspotStep` | hotspotdnsrouting/shell.go:624-645 | hotspot commands only consume input and touch the router through `auto` on a stopped router. The router's addresses and records stay. No exit status is set |
| `HotspotShell.EnableAsksOnlyWhenConnected` | hotspotdnsrouting/shell.go:671-697 | a line is read only when WiFi is connected, and the hotspot is then enabled only with consent; when not connected it is enabled without asking |
| `HotspotShell.EnableDefaults` | hotspotdnsrouting/shell.go:650-667 | without options the hotspot is IPTP-Hotspot with password iptp123456 |
| `HotspotShell.AutoStartsHeldRouter` | hotspotdnsrouting/shell.go:757-817 | `hotspot auto` starts the router the shell holds iff WiFi is not connected, enabling worked, an address was found and the listener binds |
| `HotspotShell.HStep` | hotspotdnsrouting/shell.go:98-143 | `dns` changes only the router. Commands other than `dns` and `hotspot` leave it alone. Other words act as in the iptp-go shell. An exit status is set only by a failing external command, which stops the shell |
| `HotspotShell.HStepCases` | hotspotdnsrouting/shell.go:98-143 | which step a line of each kind takes |
| `HotspotShell.HRunFrom` | hotspotdnsrouting/shell.go:58-75 | the loop ends stopped or out of input and keeps the listener invariant |
| `HotspotShell.HSession` | hotspotdnsrouting/shell.go:52-78 | Run ends stopped or out of input and keeps the listener invariant |
| `HotspotShell.FailingCommandStep` | hotspotdnsrouting/shell.go:821-823 | a failing external command stops the shell with its exit status; nothing else changes |
| `HotspotShell.FailingCommandEndsSession` | hotspotdnsrouting/shell.go:58-75 | after a failing external command no further line is read |
| `HotspotShell.Shell.constructor` | hotspotdnsrouting/shell.go:27-49 | the shell of the iptp-go constructor plus a stopped router on 0.0.0.0:53 forwarding to 8.8.8.8:53 |
| `HotspotShell.Shell.DnsStart` | hotspotdnsrouting/shell.go:499-540 | the new state is that of DnsStartStep |
| `HotspotShell.Shell.DnsStop` | hotspotdnsrouting/shell.go:543-555 | the new state is that of DnsStopStep |
| `HotspotShell.Shell.DnsLogs` | hotspotdnsrouting/shell.go:572-599 | the records shown are the last LogsCount(args) of the buffer, none for a count ≤ 0 |
| `HotspotShell.Shell.DnsStatus` | hotspotdnsrouting/shell.go:558-569 | statistics are reported iff the router runs, and they are GetStats' |
| `HotspotShell.Shell.CmdDns` | hotspotdnsrouting/shell.go:470-496 | the new state is that of DnsStep |
| `HotspotShell.Shell.HotspotEnable` | hotspotdnsrouting/shell.go:648-710 | the new state and the effect on the hotspot are those of EnableStep |
| `HotspotShell.Shell.HotspotAuto` | hotspotdnsrouting/shell.go:757-818 | the new state and the effect are those of AutoStep |
| `HotspotShell.Shell.HotspotStatus` | hotspotdnsrouting/shell.go:725-754 | unknown iff the status check fails, disabled iff it says disabled, otherwise enabled with the address and router statistics it finds |
| `HotspotShell.Shell.CmdHotspot` | hotspotdnsrouting/shell.go:624-645 | the new state and the effect are those of HotspotStep |
| `HotspotShell.Shell.CmdExec` | hotspotdnsrouting/shell.go:821-823 | the command started is the whole command line under the platform shell; the new state is ExecStep |
| `HotspotShell.Shell.ExecuteCommand` | hotspotdnsrouting/shell.go:98-143 | the new state is HStep of the old. An external command is started iff the line parses as one. Only hotspot commands have an effect on the hotspot |
| `HotspotShell.Shell.Turn` | hotspotdnsrouting/shell.go:58-75 | one iteration of the loop consumes a line and keeps the rest of the session unchanged |
| `HotspotShell.Shell.Run` | hotspotdnsrouting/shell.go:52-78 | the new state is HSession of the old |
| `Moderation.SharedSecret` | intention-proxy-server/server.js:10 | the SHARED_SECRET variable when set and non-empty, else "dev_secret" |
| `Moderation.Lookup` | intention-proxy-server/server.js:42-43 | a property is found iff the object has a member with that key |
| `Moderation.StripSha256` | intention-proxy-server/server.js:47 | one leading "sha256:" is removed, and nothing else |
| `Moderation.HexDecode` | intention-proxy-server/server.js:60 | Buffer.from(hex) gives at most half as many bytes as characters, each below 256 |
| `Moderation.HexDecodeStops` | intention-proxy-server/server.js:60 | decoding stops at the first pair that is not two hex digits |
| `Moderation.SignatureCheck` | intention-proxy-server/server.js:59-70 | a non-object intention raises; otherwise the comparison raises on a length mismatch |
| `Moderation.Verify` | intention-proxy-server/server.js:41-74 | the checks run in order, and the first failure decides: missing intention or payload (400, no trace); hash mismatch (400, hash_mismatch); missing signature (400); signature mismatch (401, signature_mismatch); exception (401, signature_mismatch_exception). The verified pair is the body's own |
| `Moderation.HashPrefixOptional` | intention-proxy-server/server.js:47 | a content hash passes with or without its "sha256:" prefix alike |
| `Moderation.AssignLookup` | intention-proxy-server/server.js:55-56 | assigning a member that exists replaces its value; a missing one stays missing |
| `Moderation.SignatureFieldIgnored` | intention-proxy-server/server.js:55-57 | the signed text does not depend on the signature member's value |
| `Moderation.ExpectedSignatureAccepted` | intention-proxy-server/server.js:55-64 | the expected signature, with any trailing text that is not hex, is accepted |
| `Moderation.SignedBodyPasses` | intention-proxy-server/server.js:41-74 | a body whose content hash and signature are the ones computed passes with its own intention and payload |
| `Moderation.ToLower` | intention-proxy-server/server.js:22 | each character is lowered (ASCII letters) and the length is kept |
| `Moderation.CountIsDistinctWords` | intention-proxy-server/server.js:25-27 | the loop count is the number of distinct words found, each counted once |
| `Moderation.FlagsDistinct` | intention-proxy-server/server.js:23 | the eight flag words are distinct |
| `Moderation.FastClassifier` | intention-proxy-server/server.js:21-29 | the score (as a flag count) is the number of distinct flag words in the lowered JSON text, at most 8 |
| `Moderation.Quarantines` | intention-proxy-server/server.js:89-90 | quarantine iff min(1, 0.3·k) ≥ 0.5 |
| `Moderation.QuarantineIffTwoFlags` | intention-proxy-server/server.js:21-29 | a submission is quarantined iff at least two distinct flag words occur |
| `Moderation.TwoFlagsFound` | intention-proxy-server/server.js:25-27 | a count of two or more means two different flag words occur |
| `Moderation.TwoFlagsCount` | intention-proxy-server/server.js:25-27 | two different flag words occurring give a count of two or more |
| `Moderation.Submit` | intention-proxy-server/server.js:76-108 | a refused request leaves both queues and writes the trace its check names. A verified one goes to the end of quarantine (202, qid) with two flag words or more, otherwise to the end of published (200, pubId), with one trace line |
| `Moderation.FindQid` | intention-proxy-server/server.js:123 | the index of the first entry with the qid, or the length when there is none |
| `Moderation.Decide` | intention-proxy-server/server.js:121-138 | an unknown qid gives 404 and no change. Otherwise the first matching entry leaves quarantine and the others keep their order. Publish appends one item to published and anything else leaves it. One decision trace is recorded and returned |
| `Moderation.DecideRemovesOne` | intention-proxy-server/server.js:123-125 | a decision removes exactly one entry (as a multiset) and shortens quarantine by one |
| `Moderation.QuarantineThenPublish` | intention-proxy-server/server.js:89-131 | a quarantined submission later published leaves quarantine as it was and adds exactly one publication |
| `Moderation.QuarantineThenReject` | intention-proxy-server/server.js:89-135 | a quarantined submission later rejected leaves both queues as they were before it was submitted |
| `Moderation.TracesAppendOnly` | intention-proxy-server/server.js:37-39 | submissions and decisions only append trace lines |
| `Moderation.Proxy.constructor` | intention-proxy-server/server.js:10-19 | both arrays and the trace file start empty, with the configured secret |
| `Moderation.Proxy.SubmitIntention` | intention-proxy-server/server.js:76-108 | the queues and the reply are those of Submit |
| `Moderation.Proxy.DecideItem` | intention-proxy-server/server.js:121-138 | the queues and the reply are those of Decide |
| `Moderation.Proxy.PendingList` | intention-proxy-server/server.js:110-113 | one view per quarantined entry, in quarantine order, with its qid, intent, client, time received and score, each taken from that entry |
| `Moderation.Proxy.ItemView` | intention-proxy-server/server.js:115-119 | 404 with "not found" iff no entry has the qid; otherwise 200 with the intention, payload, time and score of the first entry with it, as `find` returns |
| `Moderation.Proxy.PublishedList` | intention-proxy-server/server.js:140 | one view per published item, in order |
| `Moderation.Proxy.Health` | intention-proxy-server/server.js:141 | `pending` is the length of the pending list, which is the quarantine length |

## Left out

- DNS networking: `dns.Client.Exchange`, the server, `WriteMsg` and the handler registration are network I/O. The exchange's result is a parameter of `HandleRequest`.
- DNS concurrency: the goroutine, the 100 ms sleep and both mutexes are not modelled; `Start`, `Stop` and `LogQuery` run one at a time.
- DnsRouter.Router.Start: the listening goroutine's later reset of `running` is the separate `ServeFailed` step (and `bindFails` in the hotspot shell), not something that can happen between any two steps.
- The query log file: only a ghost sequence of the records whose line was written stands for it. The JSON line format is not modelled.
- `InstallService` and its platform helpers only print instructions.
- `State.Save` and `LoadState` are JSON file I/O; a save after each command is not modelled.
- `FindDirectoryFuzzy`, `FindDirectoriesFrom`, `FindDirectoriesInteractive` and `ExpandPath` walk the file system; their answers are function parameters.
- External programs (`osascript`, `nmcli`, `netsh`, `ifconfig`, `ip`, `ipconfig`, `defaults`, `sh`, `cmd`): only their command lines and the parsing of their output are modelled. The two AppleScript texts stand as placeholders in `Hotspot.Argv`.
- All printing (`fmt.Print*`, `PrintError`, `PrintSuccess`, the prompts, `list`, `state`, `help`, `pwd`, `dns stats` and `dns install`) is console output; these commands leave the state alone.
- `getCurrentDirName`, the prompt and the relative display paths of `getmethere` only shape output.
- Time, process ids, `os.Getwd`, `os.Chdir`, `os.UserHomeDir` and the `iptpCounter` atomic are parameters or plain fields. The RFC 3339 timestamp format is not checked.
- `Moderation.FastClassifier`: returns the number k of flag words found instead of the floating-point score min(1, 0.3·k). `Score` relates the two, and the comparison with 0.5 is decided on k. The count k is also what the model stores in the quarantine entry's and the received record's `score` and what `PendingList`, `ItemView` and the traces show, where the server stores and shows the float min(1, 0.3·k) (intention-proxy-server/server.js:86, 92, 111, 118).
- DnsRouter.LogPath: on windows the path is `TEMP`, a backslash and the file name. `filepath.Join` also cleans the result, so a `TEMP` ending in a separator, holding `/` separators or `.`/`..` elements gives a different string than the model.
- Navigation.TildeDropsNextChar: strings are sequences of characters, while Go's `path[2:]` slices bytes. After a '~' followed by a non-ASCII character, Go keeps that character's remaining bytes and the model drops the whole character; `Navigation.ExpandTilde` differs the same way.
- Navigation.ReadLine: the input is a sequence of complete lines. A last line without '\n' is treated as a complete line, while the Go shell's main loop stops on ReadString's error without running it (iptp-go/shell.go:53-56) and getmethere uses the partial text it read (iptp-go/shell.go:224, 262).
- Moderation.ToLower: lowers ASCII letters only. JavaScript's `toLowerCase` also maps some other characters onto ASCII letters (U+212A KELVIN SIGN to 'k'), so a payload spelling a flag word with such a character is counted by the server and not by the model.
- Moderation.SignatureCheck: a signature that is not a string is treated as raising. Node's `Buffer.from` also accepts arrays and buffers.
- Moderation.Get: an object with a repeated key answers with its first member. `JSON.parse` keeps the last one.
- Moderation.Submit: the trace lines keep the event, the intention, the score and the id. The other trace fields (`ip`, `intentName`, `clientId`, `contentHash`) and the HTTP framing (Express, body-parser, the 5 MB limit) are not modelled.
- The publication file write (`writeFileSync`) is assumed to succeed; its contents are not modelled, only its path.
- SHA-256, HMAC-SHA256, `JSON.stringify`, `timingSafeEqual`'s constant time and `randomBytes` are foreign functions or parameters.
- intention-client-demo/intention-client.js and test-send.js, iptp-go/main.go and iptp-go/guide/xplainmain.go are entry points and demo clients, not part of this model.

## Findings

| source | as written | input that shows it | evidently intended | confidence | as-written member | corrected member |
|---|---|---|---|---|---|---|
| dnsrouting/dns_router.go:221-229 | `GetRecentQueries` clamps only counts above the buffer length and returns early only for 0, so a negative count reaches `dr.queries[len(dr.queries)-count:]`, whose start is past the end | `dns logs -3` in the hotspot shell: `Sscanf("%d")` reads -3, and the slice panics whatever the buffer holds (`DnsRouter.NegativeCountPanics`, `HotspotShell.NegativeLogsCount`) | a count of zero or less gives no records | not executed; high | `DnsRouter.RecentQueriesAsWritten` | `DnsRouter.RecentQueries` |
| dnsrouting/commands.go:67-78 | `ExecuteScript` passes only the first word as the `sh -c` script and appends the other words after it. `sh` binds those to `$0`, `$1`, ..., so they are never run | the words `ls -la` outside windows run `ls` alone, with "-la" as `$0` (`DnsCommands.ShDropsArguments`); on windows `cmd /C` runs every word | the whole command line is the script, and every word runs | not executed; medium | `DnsCommands.ScriptFor` | `DnsCommands.FixedScript` |

The corrected members are the ones the rest of the model uses:
- `Router.GetRecentQueries` and `dns logs` use `RecentQueries`;
- the hotspot shell's external commands use `FixedScript`.

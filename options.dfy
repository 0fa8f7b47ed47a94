/**
 * The `--flag value` loops of hotspotdnsrouting/shell.go (dnsStart,
 * hotspotEnable, hotspotAuto). Each loop fills two settings: a flag of the
 * first kind sets the first one, a flag of the second kind the second, and
 * each consumes the token after it; a flag with no token after it and any
 * other token are skipped.
 */
module Options {

  /** The two values an option loop fills in. */
  datatype Settings = Settings(first: string, second: string)

  const ListenFlags: set<string> := {"--listen", "-l"}
  const UpstreamFlags: set<string> := {"--upstream", "-u"}
  const SsidFlags: set<string> := {"--ssid", "-s"}
  const PasswordFlags: set<string> := {"--password", "-p"}

  /** dnsStart: listen address and upstream server when no option is given. */
  const DnsDefaults := Settings("0.0.0.0:53", "8.8.8.8:53")
  /** hotspotEnable and hotspotAuto: SSID and password when no option is given. */
  const HotspotDefaults := Settings("IPTP-Hotspot", "iptp123456")

  /**
   * What the loop leaves in the two variables after reading the tokens
   * `args`, starting from `cur`. The switch tries the first kind of flag
   * before the second.
   */
  function Scan(args: seq<string>, firstFlags: set<string>, secondFlags: set<string>, cur: Settings): Settings
    decreases |args|
  {
    if args == [] then cur
    else if args[0] in firstFlags then
      if |args| >= 2 then Scan(args[2..], firstFlags, secondFlags, cur.(first := args[1])) else cur
    else if args[0] in secondFlags then
      if |args| >= 2 then Scan(args[2..], firstFlags, secondFlags, cur.(second := args[1])) else cur
    else Scan(args[1..], firstFlags, secondFlags, cur)
  }

  /** The option loop itself: an index that a flag with a value advances twice. */
  method ParseOptions(args: seq<string>, firstFlags: set<string>, secondFlags: set<string>, defaults: Settings)
    returns (r: Settings)
    ensures r == Scan(args, firstFlags, secondFlags, defaults)
  {
    var first := defaults.first;
    var second := defaults.second;
    var i := 0;
    while i < |args|
      invariant 0 <= i <= |args|
      invariant Scan(args, firstFlags, secondFlags, defaults)
                == Scan(args[i..], firstFlags, secondFlags, Settings(first, second))
    {
      assert args[i..][1..] == args[i + 1..];
      if args[i] in firstFlags {
        if i + 1 < |args| {
          assert args[i..][2..] == args[i + 2..];
          first := args[i + 1];
          i := i + 1;
        }
      } else if args[i] in secondFlags {
        if i + 1 < |args| {
          assert args[i..][2..] == args[i + 2..];
          second := args[i + 1];
          i := i + 1;
        }
      }
      i := i + 1;
    }
    return Settings(first, second);
  }

  /** Without any flag among the tokens the starting values are kept. */
  lemma {:induction false} NoFlagsKeepsDefaults(args: seq<string>, firstFlags: set<string>, secondFlags: set<string>, cur: Settings)
    requires forall k :: 0 <= k < |args| ==> args[k] !in firstFlags && args[k] !in secondFlags
    ensures Scan(args, firstFlags, secondFlags, cur) == cur
    decreases |args|
  {
    if args != [] {
      NoFlagsKeepsDefaults(args[1..], firstFlags, secondFlags, cur);
    }
  }

  /** Flag-value pairs written one after the other on the command line. */
  function Flatten(pairs: seq<(string, string)>): (r: seq<string>)
    ensures |r| == 2 * |pairs|
  {
    if pairs == [] then [] else [pairs[0].0, pairs[0].1] + Flatten(pairs[1..])
  }

  /** The value of the last pair whose flag is in `flags`; `dflt` when there is none. */
  function LastValue(pairs: seq<(string, string)>, flags: set<string>, dflt: string): string
    decreases |pairs|
  {
    if pairs == [] then dflt
    else if pairs[|pairs| - 1].0 in flags then pairs[|pairs| - 1].1
    else LastValue(pairs[..|pairs| - 1], flags, dflt)
  }

  /** A pair in front only changes the fallback of the pairs after it. */
  lemma {:induction false} LastValueCons(p: (string, string), rest: seq<(string, string)>, flags: set<string>, dflt: string)
    ensures LastValue([p] + rest, flags, dflt) == LastValue(rest, flags, if p.0 in flags then p.1 else dflt)
    decreases |rest|
  {
    if rest != [] {
      var q := [p] + rest;
      assert q[..|q| - 1] == [p] + rest[..|rest| - 1];
      LastValueCons(p, rest[..|rest| - 1], flags, dflt);
    }
  }

  /**
   * Last occurrence wins: on a command line made of flag-value pairs, each
   * setting ends up with the value of the last flag of its kind, whatever
   * that value looks like (a value that is itself a flag is consumed as a
   * value), and keeps its starting value when no flag of its kind occurs.
   */
  lemma {:induction false} LastFlagWins(pairs: seq<(string, string)>, firstFlags: set<string>, secondFlags: set<string>, cur: Settings)
    requires firstFlags !! secondFlags
    requires forall k :: 0 <= k < |pairs| ==> pairs[k].0 in firstFlags + secondFlags
    ensures Scan(Flatten(pairs), firstFlags, secondFlags, cur)
            == Settings(LastValue(pairs, firstFlags, cur.first), LastValue(pairs, secondFlags, cur.second))
    decreases |pairs|
  {
    if pairs != [] {
      var p := pairs[0];
      var rest := pairs[1..];
      assert pairs == [p] + rest;
      assert Flatten(pairs)[2..] == Flatten(rest);
      var next := if p.0 in firstFlags then cur.(first := p.1) else cur.(second := p.1);
      LastFlagWins(rest, firstFlags, secondFlags, next);
      LastValueCons(p, rest, firstFlags, cur.first);
      LastValueCons(p, rest, secondFlags, cur.second);
    }
  }

  /** A flag and its value in front of the tokens set the flag's variable. */
  lemma ScanPair(flag: string, value: string, tail: seq<string>, firstFlags: set<string>, secondFlags: set<string>, cur: Settings)
    requires flag in firstFlags + secondFlags
    ensures Scan([flag, value] + tail, firstFlags, secondFlags, cur)
            == Scan(tail, firstFlags, secondFlags, if flag in firstFlags then cur.(first := value) else cur.(second := value))
  {
    assert ([flag, value] + tail)[2..] == tail;
  }

  /** After a run of flag-value pairs the loop carries on from the values they set. */
  lemma {:induction false} ScanAfterPairs(pairs: seq<(string, string)>, rest: seq<string>, firstFlags: set<string>, secondFlags: set<string>, cur: Settings)
    requires forall k :: 0 <= k < |pairs| ==> pairs[k].0 in firstFlags + secondFlags
    ensures Scan(Flatten(pairs) + rest, firstFlags, secondFlags, cur)
            == Scan(rest, firstFlags, secondFlags, Scan(Flatten(pairs), firstFlags, secondFlags, cur))
    decreases |pairs|
  {
    if pairs != [] {
      var p := pairs[0];
      var after := Flatten(pairs[1..]);
      assert p.0 in firstFlags + secondFlags;
      assert Flatten(pairs) == [p.0, p.1] + after;
      assert Flatten(pairs) + rest == [p.0, p.1] + (after + rest);
      var next := if p.0 in firstFlags then cur.(first := p.1) else cur.(second := p.1);
      ScanPair(p.0, p.1, after, firstFlags, secondFlags, cur);
      ScanPair(p.0, p.1, after + rest, firstFlags, secondFlags, cur);
      ScanAfterPairs(pairs[1..], rest, firstFlags, secondFlags, next);
    } else {
      assert Flatten(pairs) + rest == rest;
    }
  }

  /** A flag in final position, with no value after it, is ignored. */
  lemma DanglingFlagIgnored(pairs: seq<(string, string)>, flag: string, firstFlags: set<string>, secondFlags: set<string>, cur: Settings)
    requires forall k :: 0 <= k < |pairs| ==> pairs[k].0 in firstFlags + secondFlags
    requires flag in firstFlags + secondFlags
    ensures Scan(Flatten(pairs) + [flag], firstFlags, secondFlags, cur) == Scan(Flatten(pairs), firstFlags, secondFlags, cur)
  {
    ScanAfterPairs(pairs, [flag], firstFlags, secondFlags, cur);
  }

  /** A token that is no flag, between pairs, is skipped. */
  lemma UnknownTokenSkipped(pairs: seq<(string, string)>, token: string, rest: seq<string>,
                            firstFlags: set<string>, secondFlags: set<string>, cur: Settings)
    requires forall k :: 0 <= k < |pairs| ==> pairs[k].0 in firstFlags + secondFlags
    requires token !in firstFlags && token !in secondFlags
    ensures Scan(Flatten(pairs) + [token] + rest, firstFlags, secondFlags, cur)
            == Scan(Flatten(pairs) + rest, firstFlags, secondFlags, cur)
  {
    assert Flatten(pairs) + [token] + rest == Flatten(pairs) + ([token] + rest);
    ScanAfterPairs(pairs, [token] + rest, firstFlags, secondFlags, cur);
    ScanAfterPairs(pairs, rest, firstFlags, secondFlags, cur);
    assert ([token] + rest)[1..] == rest;
  }

  /** `dns start -l 127.0.0.1:5353 --listen 0.0.0.0:5300 -u`: the last listen flag wins, the dangling -u is ignored. */
  lemma DnsStartExample()
    ensures Scan(["-l", "127.0.0.1:5353", "--listen", "0.0.0.0:5300", "-u"], ListenFlags, UpstreamFlags, DnsDefaults)
            == Settings("0.0.0.0:5300", "8.8.8.8:53")
  {
  }
}

/**
 * The DNS router of dnsrouting/dns_router.go: per-query outcome logic, the
 * bounded in-memory audit buffer, the running/stopped lifecycle and the
 * read-only views over the buffer. The upstream exchange, the listener and
 * the log file are inputs; the router itself is a class whose fields the
 * methods update in place, as the Go struct's are.
 */
module DnsRouter {

  import opened Wrappers
  import opened Text

  /** One logged query (the JSON keys of the log file are given beside each field in the source). */
  datatype DNSQuery = DNSQuery(
    timestamp: string,
    clientIP: string,
    domain: string,
    queryType: string,
    response: string,
    upstream: string)

  /** The in-memory buffer keeps at most this many records. */
  const MaxQueries: nat := 1000

  const LogFileName: string := "iptp_dns_queries.log"

  /** RCODE 2, "Server failure" (section 4.1.1 of RFC 1035). */
  const RcodeServerFailure: nat := 2

  const Failed: string := "FAILED"
  const NoAnswer: string := "NO_ANSWER"

  /** One entry of a question section: the owner name and the mnemonic of its type. */
  datatype Question = Question(name: string, qtype: string)

  /**
   * An answer-section record: an A record (section 3.4.1 of RFC 1035) or an
   * AAAA record (section 2.2 of RFC 3596) with its address already in text
   * form, or any other type.
   */
  datatype RR = A(ipv4: string) | AAAA(ipv6: string) | OtherRR(rrtype: string)

  datatype Msg = Msg(
    id: nat,
    response: bool,
    rcode: nat,
    authoritative: bool,
    question: seq<Question>,
    answer: seq<RR>)

  /** What the exchange with the upstream resolver produced. */
  datatype Exchange = ExchangeFailed(err: string) | Answered(reply: Msg)

  datatype RouterError = AlreadyRunning | NotRunning | ShutdownFailed(msg: string)

  datatype Stats = Stats(
    totalQueries: nat,
    uniqueDomains: nat,
    running: bool,
    listenAddress: string,
    upstreamDNS: string,
    logFile: string)

  /**
   * getDNSLogPath: the fixed file name inside TEMP on windows and inside
   * /tmp on every other platform.
   */
  function LogPath(goos: string, temp: string): (p: string)
    ensures goos != "windows" ==> p == "/tmp/iptp_dns_queries.log"
    ensures goos == "windows" && temp != "" ==> HasPrefix(p, temp) && p[|temp|..] == "\\" + LogFileName
    ensures goos == "windows" && temp == "" ==> p == LogFileName
  {
    if goos == "windows" then
      if temp == "" then LogFileName else temp + "\\" + LogFileName
    else "/tmp/" + LogFileName
  }

  predicate IsAddress(rr: RR) {
    rr.A? || rr.AAAA?
  }

  function AddressOf(rr: RR): string
    requires IsAddress(rr)
  {
    if rr.A? then rr.ipv4 else rr.ipv6
  }

  /** The first A or AAAA address of an answer section, in answer order. */
  function FirstAddress(answers: seq<RR>): (r: Option<string>)
    ensures r.None? <==> forall i :: 0 <= i < |answers| ==> !IsAddress(answers[i])
    ensures r.Some? ==>
      exists i :: 0 <= i < |answers| && IsAddress(answers[i]) && AddressOf(answers[i]) == r.value
        && forall j :: 0 <= j < i ==> !IsAddress(answers[j])
    decreases |answers|
  {
    if answers == [] then None
    else if IsAddress(answers[0]) then Some(AddressOf(answers[0]))
    else
      var r := FirstAddress(answers[1..]);
      r
  }

  /**
   * The `response` field recorded for one forwarded query: FAILED when the
   * exchange failed, otherwise the first address of the reply, or NO_ANSWER
   * when the reply carries no A or AAAA record.
   */
  function ResponseOf(ex: Exchange): (r: string)
    ensures ex.ExchangeFailed? ==> r == Failed
    ensures ex.Answered? ==>
      (r == NoAnswer <== forall i :: 0 <= i < |ex.reply.answer| ==> !IsAddress(ex.reply.answer[i]))
    ensures ex.Answered? && (exists i :: 0 <= i < |ex.reply.answer| && IsAddress(ex.reply.answer[i])) ==>
      exists i :: 0 <= i < |ex.reply.answer| && IsAddress(ex.reply.answer[i]) && AddressOf(ex.reply.answer[i]) == r
        && forall j :: 0 <= j < i ==> !IsAddress(ex.reply.answer[j])
  {
    match ex
    case ExchangeFailed(_) => Failed
    case Answered(reply) =>
      match FirstAddress(reply.answer)
      case Some(ip) => ip
      case None => NoAnswer
  }

  /** The domain recorded for a query: the first question's name, or "" for an empty question section. */
  function QueryDomain(query: Msg): string {
    if |query.question| > 0 then query.question[0].name else ""
  }

  function QueryType(query: Msg): string {
    if |query.question| > 0 then query.question[0].qtype else ""
  }

  /**
   * The reply synthesized when the exchange fails: a response to the same
   * transaction, carrying SERVFAIL, marked authoritative, with the first
   * question copied and no answers.
   */
  function ServFailReply(query: Msg): (m: Msg)
    ensures m.id == query.id && m.response && m.rcode == RcodeServerFailure && m.authoritative
    ensures m.answer == [] && m.question == query.question[..if |query.question| > 0 then 1 else 0]
  {
    Msg(query.id, true, RcodeServerFailure, true,
        if |query.question| > 0 then [query.question[0]] else [], [])
  }

  function Min(a: int, b: int): int {
    if a <= b then a else b
  }

  /** The most recent min(|s|, 1000) records of `s`, oldest first. */
  function Window(s: seq<DNSQuery>): (w: seq<DNSQuery>)
    ensures |w| == Min(|s|, MaxQueries)
    ensures w == s[|s| - |w|..]
  {
    if |s| <= MaxQueries then s else s[|s| - MaxQueries..]
  }

  /**
   * Appending to the window of `s` and re-windowing gives the window of the
   * extended sequence: the buffer always holds the most recent records.
   */
  lemma WindowAppend(s: seq<DNSQuery>, q: DNSQuery)
    ensures Window(Window(s) + [q]) == Window(s + [q])
  {
    var w := Window(s);
    var l, r := Window(w + [q]), Window(s + [q]);
    assert |l| == |r|;
    forall k | 0 <= k < |l|
      ensures l[k] == r[k]
    {
      if k < |l| - 1 {
        assert l[k] == (w + [q])[|w| + 1 - |l| + k];
        assert r[k] == (s + [q])[|s| + 1 - |r| + k];
      }
    }
  }

  /**
   * One append to a buffer that respects the bound: the new record comes
   * last, the surviving older records keep their order, and only the
   * oldest is dropped, and only when the buffer was full.
   */
  lemma {:induction false} AppendEvictsOldest(buf: seq<DNSQuery>, q: DNSQuery)
    requires |buf| <= MaxQueries
    ensures var w := Window(buf + [q]);
      && w[|w| - 1] == q
      && (|buf| < MaxQueries ==> w == buf + [q])
      && (|buf| == MaxQueries ==> w == buf[1..] + [q])
  {
    var w := Window(buf + [q]);
    if |buf| == MaxQueries {
      assert w == (buf + [q])[1..];
      assert (buf + [q])[1..] == buf[1..] + [q];
    }
  }

  /**
   * GetRecentQueries as the source writes it: None stands for the run-time
   * panic of slicing out of range, which a negative count causes.
   */
  function RecentQueriesAsWritten(buf: seq<DNSQuery>, count: int): Option<seq<DNSQuery>> {
    var c := if count > |buf| then |buf| else count;
    if c == 0 then Some([])
    else if c < 0 then None
    else Some(buf[|buf| - c..])
  }

  /** The corrected GetRecentQueries: a count of zero or less asks for nothing. */
  function RecentQueries(buf: seq<DNSQuery>, count: int): (r: seq<DNSQuery>)
    ensures |r| == if count <= 0 then 0 else Min(count, |buf|)
    ensures r == buf[|buf| - |r|..]
  {
    var c := if count > |buf| then |buf| else count;
    if c <= 0 then [] else buf[|buf| - c..]
  }

  /** A negative count makes the source's slice expression panic, whatever the buffer holds. */
  lemma NegativeCountPanics(buf: seq<DNSQuery>, count: int)
    requires count < 0
    ensures RecentQueriesAsWritten(buf, count) == None
    ensures RecentQueries(buf, count) == []
  {
  }

  /** For every count the source accepts, the corrected function answers as the source does. */
  lemma RecentQueriesAgree(buf: seq<DNSQuery>, count: int)
    requires count >= 0
    ensures RecentQueriesAsWritten(buf, count) == Some(RecentQueries(buf, count))
  {
  }

  /** The set of distinct `domain` values of a buffer. */
  function DomainsOf(buf: seq<DNSQuery>): set<string>
    decreases |buf|
  {
    if buf == [] then {} else DomainsOf(buf[..|buf| - 1]) + {buf[|buf| - 1].domain}
  }

  lemma {:induction false} DomainsOfMembers(buf: seq<DNSQuery>, d: string)
    ensures d in DomainsOf(buf) <==> exists i :: 0 <= i < |buf| && buf[i].domain == d
    decreases |buf|
  {
    if buf != [] {
      var init := buf[..|buf| - 1];
      DomainsOfMembers(init, d);
      if d in DomainsOf(init) {
        var i :| 0 <= i < |init| && init[i].domain == d;
        assert buf[i].domain == d;
      }
      if exists i :: 0 <= i < |buf| && buf[i].domain == d {
        var i :| 0 <= i < |buf| && buf[i].domain == d;
        if i < |init| {
          assert init[i].domain == d;
        }
      }
    }
  }

  /** Three queries to a.com, b.com, a.com count three queries and two distinct domains. */
  lemma StatsExample(q1: DNSQuery, q2: DNSQuery, q3: DNSQuery)
    requires q1.domain == "a.com" && q2.domain == "b.com" && q3.domain == "a.com"
    ensures |[q1, q2, q3]| == 3 && |DomainsOf([q1, q2, q3])| == 2
  {
    assert [q1, q2, q3][..2] == [q1, q2];
    assert [q1, q2][..1] == [q1];
    assert [q1][..0] == [];
    assert DomainsOf([q1]) == {"a.com"};
    assert DomainsOf([q1, q2]) == {"a.com", "b.com"};
    assert DomainsOf([q1, q2, q3]) == {"a.com", "b.com"};
    assert "a.com" != "b.com";
  }

  class Router {
    const listenAddr: string
    const upstreamDNS: string
    const logFile: string

    /** The in-memory audit buffer, oldest record first. */
    var queries: seq<DNSQuery>
    var running: bool
    /** Whether a listener object has been created (the source's `server != nil`). */
    var hasServer: bool

    /** Every record ever handed to the buffer, in arrival order. */
    ghost var logged: seq<DNSQuery>
    /** The records whose line reached the append-only log file. */
    ghost var fileRecords: seq<DNSQuery>

    /** The buffer is exactly the most recent min(n, 1000) of the n records logged so far. */
    ghost predicate Valid()
      reads this
    {
      queries == Window(logged)
    }

    /** NewDNSRouter: stopped, empty, with the platform's log path. */
    constructor (listenAddr: string, upstreamDNS: string, goos: string, temp: string)
      ensures Valid()
      ensures this.listenAddr == listenAddr && this.upstreamDNS == upstreamDNS
      ensures logFile == LogPath(goos, temp)
      ensures queries == [] && logged == [] && fileRecords == []
      ensures !running && !hasServer
    {
      this.listenAddr := listenAddr;
      this.upstreamDNS := upstreamDNS;
      logFile := LogPath(goos, temp);
      queries := [];
      running := false;
      hasServer := false;
      logged := [];
      fileRecords := [];
    }

    /**
     * logQuery: append the record, then drop the oldest records beyond
     * 1000. A log file that cannot be opened leaves the in-memory append in
     * place.
     */
    method LogQuery(clientIP: string, domain: string, qtype: string, response: string, upstream: string,
                    now: string, fileOpens: bool)
      requires Valid()
      modifies this
      ensures Valid()
      ensures var q := DNSQuery(now, clientIP, domain, qtype, response, upstream);
        && logged == old(logged) + [q]
        && queries == Window(old(queries) + [q])
        && fileRecords == old(fileRecords) + (if fileOpens then [q] else [])
      ensures running == old(running) && hasServer == old(hasServer)
    {
      var query := DNSQuery(now, clientIP, domain, qtype, response, upstream);
      var buffer := queries + [query];
      if |buffer| > MaxQueries {
        buffer := buffer[|buffer| - MaxQueries..];
      }
      assert buffer == Window(queries + [query]);
      WindowAppend(logged, query);
      queries := buffer;
      logged := logged + [query];
      if fileOpens {
        fileRecords := fileRecords + [query];
      }
    }

    /**
     * handleDNSRequest: record the query's outcome, then answer the client
     * with the upstream reply, or with a SERVFAIL reply when the exchange
     * failed.
     */
    method HandleRequest(query: Msg, clientIP: string, ex: Exchange, now: string, fileOpens: bool)
      returns (reply: Msg)
      requires Valid()
      modifies this
      ensures Valid()
      ensures var q := DNSQuery(now, clientIP, QueryDomain(query), QueryType(query), ResponseOf(ex), upstreamDNS);
        && logged == old(logged) + [q]
        && queries == Window(old(queries) + [q])
        && fileRecords == old(fileRecords) + (if fileOpens then [q] else [])
      ensures ex.ExchangeFailed? ==> reply == ServFailReply(query)
      ensures ex.Answered? ==> reply == ex.reply
      ensures running == old(running) && hasServer == old(hasServer)
    {
      var domain, qtype := QueryDomain(query), QueryType(query);
      match ex {
        case ExchangeFailed(_) =>
          reply := ServFailReply(query);
          LogQuery(clientIP, domain, qtype, Failed, upstreamDNS, now, fileOpens);
        case Answered(inMsg) =>
          var response := ResponseOf(ex);
          LogQuery(clientIP, domain, qtype, response, upstreamDNS, now, fileOpens);
          reply := inMsg;
      }
    }

    /** Start: refused while running; otherwise the router is running with a listener. */
    method Start() returns (r: Result<(), RouterError>)
      requires Valid()
      modifies this
      ensures Valid() && queries == old(queries) && logged == old(logged) && fileRecords == old(fileRecords)
      ensures old(running) ==> r == Err(AlreadyRunning) && running && hasServer == old(hasServer)
      ensures !old(running) ==> r == Ok(()) && running && hasServer
    {
      if running {
        return Err(AlreadyRunning);
      }
      running := true;
      hasServer := true;
      r := Ok(());
    }

    /**
     * The error path of the listening goroutine Start launches: when the
     * listener cannot serve (the port cannot be bound, say) the router is
     * marked stopped; the listener object stays.
     */
    method ServeFailed()
      requires Valid()
      modifies this
      ensures Valid() && queries == old(queries) && logged == old(logged) && fileRecords == old(fileRecords)
      ensures !running && hasServer == old(hasServer)
    {
      running := false;
    }

    /**
     * Stop: refused while stopped; with a listener it is shut down (its
     * error, if any, is returned) and the router is stopped; without one
     * nothing changes.
     */
    method Stop(shutdownError: Option<string>) returns (r: Result<(), RouterError>)
      requires Valid()
      modifies this
      ensures Valid() && queries == old(queries) && logged == old(logged) && fileRecords == old(fileRecords)
      ensures hasServer == old(hasServer)
      ensures !old(running) ==> r == Err(NotRunning) && !running
      ensures old(running) && old(hasServer) ==>
        !running && r == (if shutdownError.Some? then Err(ShutdownFailed(shutdownError.value)) else Ok(()))
      ensures old(running) && !old(hasServer) ==> running && r == Ok(())
    {
      if !running {
        return Err(NotRunning);
      }
      if hasServer {
        running := false;
        r := if shutdownError.Some? then Err(ShutdownFailed(shutdownError.value)) else Ok(());
        return;
      }
      r := Ok(());
    }

    function IsRunning(): (b: bool)
      reads this
      ensures b <==> running
    {
      running
    }

    /** GetRecentQueries (corrected): the last min(count, |queries|) records, oldest first. */
    method GetRecentQueries(count: int) returns (r: seq<DNSQuery>)
      ensures |r| == if count <= 0 then 0 else Min(count, |queries|)
      ensures r == queries[|queries| - |r|..]
    {
      r := RecentQueries(queries, count);
    }

    /** GetStats: the buffer's length, its number of distinct domains, and the configuration. */
    method GetStats() returns (s: Stats)
      ensures s.totalQueries == |queries|
      ensures s.uniqueDomains == |DomainsOf(queries)|
      ensures s.running == running
      ensures s.listenAddress == listenAddr && s.upstreamDNS == upstreamDNS && s.logFile == logFile
    {
      var seen: set<string> := {};
      var i := 0;
      while i < |queries|
        invariant 0 <= i <= |queries|
        invariant seen == DomainsOf(queries[..i])
      {
        assert queries[..i + 1][..i] == queries[..i];
        seen := seen + {queries[i].domain};
        i := i + 1;
      }
      assert queries[..|queries|] == queries;
      s := Stats(|queries|, |seen|, running, listenAddr, upstreamDNS, logFile);
    }
  }
}

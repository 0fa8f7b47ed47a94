/**
 * The moderation proxy of intention-proxy-server/server.js: the check of a
 * signed intention, the flag-word classifier, and the two queues a
 * submission ends up in, quarantine and published. JSON text, SHA-256
 * (FIPS 180-4) and HMAC-SHA256 (RFC 2104) are foreign functions given as
 * values; the random ids and the clock are parameters.
 */
module Moderation {

  import opened Wrappers
  import opened Text
  import opened Paths

  /** A parsed JSON value as body-parser delivers it. */
  datatype Json =
    | Null
    | Bool(b: bool)
    | Num(n: real)
    | Str(s: string)
    | Arr(items: seq<Json>)
    | Obj(members: seq<(string, Json)>)

  /** The code the proxy calls but does not contain. */
  datatype Foreign = Foreign(
    /** JSON.stringify */
    stringify: Json -> string,
    /** sha256hex: the SHA-256 digest of the text, in hex. */
    sha256Hex: string -> string,
    /** hmacSign: the HMAC-SHA256 of the text keyed by the second argument, in hex. */
    hmacHex: (string, string) -> string)

  datatype Config = Config(foreign: Foreign, secret: string, publishDir: string)

  /** SHARED_SECRET: the environment variable when it is set and not empty, else "dev_secret". */
  function SharedSecret(env: Option<string>): (secret: string)
    ensures secret != ""
    ensures env.Some? && env.value != "" ==> secret == env.value
    ensures env.None? || env.value == "" ==> secret == "dev_secret"
  {
    if env.Some? && env.value != "" then env.value else "dev_secret"
  }

  // ---------------------------------------------------------------------
  // JavaScript values
  // ---------------------------------------------------------------------

  /** A property read: the first member with the key, and undefined (None) on anything but an object. */
  function Get(j: Json, key: string): (v: Option<Json>)
    ensures !j.Obj? ==> v.None?
  {
    if j.Obj? then Lookup(j.members, key) else None
  }

  function Lookup(ms: seq<(string, Json)>, key: string): (v: Option<Json>)
    ensures v.Some? <==> exists i :: 0 <= i < |ms| && ms[i].0 == key
    decreases |ms|
  {
    if ms == [] then None
    else if ms[0].0 == key then Some(ms[0].1)
    else
      var r := Lookup(ms[1..], key);
      assert forall i :: 1 <= i < |ms| ==> ms[i] == ms[1..][i - 1];
      r
  }

  /** Reading the second member of a two-member object. */
  lemma LookupSecond(k1: string, v1: Json, k2: string, v2: Json)
    requires k1 != k2
    ensures Lookup([(k1, v1), (k2, v2)], k1) == Some(v1)
    ensures Lookup([(k1, v1), (k2, v2)], k2) == Some(v2)
  {
    assert [(k1, v1), (k2, v2)][1..] == [(k2, v2)];
  }

  /** `delete copy.key` on a copy of the members. */
  function Without(ms: seq<(string, Json)>, key: string): (r: seq<(string, Json)>)
    ensures forall i :: 0 <= i < |r| ==> r[i].0 != key && r[i] in ms
    decreases |ms|
  {
    if ms == [] then []
    else if ms[0].0 == key then Without(ms[1..], key)
    else [ms[0]] + Without(ms[1..], key)
  }

  /** The same members with every `key` member holding `v`. */
  function Assign(ms: seq<(string, Json)>, key: string, v: Json): (r: seq<(string, Json)>)
    ensures |r| == |ms|
    decreases |ms|
  {
    if ms == [] then []
    else [if ms[0].0 == key then (key, v) else ms[0]] + Assign(ms[1..], key, v)
  }

  /** JavaScript truthiness; undefined (None) is falsy. */
  predicate Truthy(v: Option<Json>) {
    match v
    case None => false
    case Some(Null) => false
    case Some(Bool(b)) => b
    case Some(Num(n)) => n != 0.0
    case Some(Str(s)) => s != ""
    case Some(_) => true
  }

  // ---------------------------------------------------------------------
  // verifyIntentionMiddleware
  // ---------------------------------------------------------------------

  /** How one check of the middleware ends: passed, failed, or with an exception. */
  datatype Check = Passed | Failed | Raised

  /** `.replace(/^sha256:/, '')`: one leading "sha256:" is dropped. */
  function StripSha256(h: string): (r: string)
    ensures HasPrefix(h, "sha256:") ==> h == "sha256:" + r
    ensures !HasPrefix(h, "sha256:") ==> r == h
  {
    if HasPrefix(h, "sha256:") then h[7..] else h
  }

  /**
   * The content-hash check: a missing or empty contentHash fails; a string
   * passes when, without its "sha256:" prefix, it is the hex SHA-256 of the
   * payload's JSON text; any other truthy value has no `replace` and raises
   * a TypeError.
   */
  function HashCheck(intention: Json, payload: Json, f: Foreign): Check {
    match Get(intention, "contentHash")
    case Some(Str(h)) =>
      if h != "" && StripSha256(h) == f.sha256Hex(f.stringify(payload)) then Passed else Failed
    case other => if Truthy(other) then Raised else Failed
  }

  predicate IsHexDigit(c: char) {
    '0' <= c <= '9' || 'a' <= c <= 'f' || 'A' <= c <= 'F'
  }

  function HexValue(c: char): (v: nat)
    requires IsHexDigit(c)
    ensures v < 16
  {
    if '0' <= c <= '9' then c as nat - '0' as nat
    else if 'a' <= c <= 'f' then c as nat - 'a' as nat + 10
    else c as nat - 'A' as nat + 10
  }

  /** Buffer.from(s, 'hex'): pairs of hex digits, up to the first pair that is not one. */
  function HexDecode(s: string): (bytes: seq<nat>)
    ensures |bytes| <= |s| / 2
    ensures forall i :: 0 <= i < |bytes| ==> bytes[i] < 256
    decreases |s|
  {
    if |s| >= 2 && IsHexDigit(s[0]) && IsHexDigit(s[1]) then
      [16 * HexValue(s[0]) + HexValue(s[1])] + HexDecode(s[2..])
    else []
  }

  /** The signature the proxy expects: the HMAC of the intention's JSON text with its `signature` member deleted. */
  function ExpectedSignature(intention: seq<(string, Json)>, f: Foreign, secret: string): string {
    f.hmacHex(f.stringify(Obj(Without(intention, "signature"))), secret)
  }

  /**
   * The signature comparison: crypto.timingSafeEqual of the two decoded
   * buffers, which raises when their lengths differ. A signature that is not
   * a string is taken as one Buffer.from rejects.
   */
  function SignatureCheck(intention: Json, f: Foreign, secret: string): (c: Check)
    ensures !intention.Obj? ==> c == Raised
  {
    match (intention, Get(intention, "signature"))
    case (Obj(ms), Some(Str(sig))) =>
      var expected := HexDecode(ExpectedSignature(ms, f, secret));
      var given := HexDecode(sig);
      if |expected| != |given| then Raised
      else if expected == given then Passed
      else Failed
    case _ => Raised
  }

  /**
   * The answer of the middleware: a refusal with its status, message and
   * the trace event it writes (if any), an exception that escapes to
   * Express, or the verified intention and payload.
   */
  datatype Verdict =
    | Refuse(status: nat, error: string, event: Option<string>)
    | Throws
    | Pass(intention: Json, payload: Json)

  /** Missing intention or payload: the first check of the middleware. */
  predicate Incomplete(body: Json) {
    !Truthy(Get(body, "intention")) || !Truthy(Get(body, "payload"))
  }

  /**
   * verifyIntentionMiddleware. The checks run in this order and the first
   * that fails decides: intention and payload present (400), content hash
   * (400, or a TypeError), signature present (400), signature equal to the
   * expected one (401 for a mismatch and for an exception alike).
   */
  function Verify(body: Json, c: Config): (v: Verdict)
    ensures Incomplete(body) ==> v == Refuse(400, "missing intention or payload", None)
    ensures !Incomplete(body) ==>
      var i := Get(body, "intention").value;
      var p := Get(body, "payload").value;
      && (HashCheck(i, p, c.foreign) == Raised ==> v == Throws)
      && (HashCheck(i, p, c.foreign) == Failed ==> v == Refuse(400, "contentHash mismatch", Some("hash_mismatch")))
      && (HashCheck(i, p, c.foreign) == Passed && !Truthy(Get(i, "signature")) ==>
            v == Refuse(400, "missing signature", None))
      && (HashCheck(i, p, c.foreign) == Passed && Truthy(Get(i, "signature")) ==>
            match SignatureCheck(i, c.foreign, c.secret)
            case Raised => v == Refuse(401, "signature verification failed", Some("signature_mismatch_exception"))
            case Failed => v == Refuse(401, "signature verification failed", Some("signature_mismatch"))
            case Passed => v == Pass(i, p))
    ensures v.Pass? ==> Some(v.intention) == Get(body, "intention") && Some(v.payload) == Get(body, "payload")
  {
    if Incomplete(body) then Refuse(400, "missing intention or payload", None)
    else
      var i := Get(body, "intention").value;
      var p := Get(body, "payload").value;
      match HashCheck(i, p, c.foreign)
      case Raised => Throws
      case Failed => Refuse(400, "contentHash mismatch", Some("hash_mismatch"))
      case Passed =>
        if !Truthy(Get(i, "signature")) then Refuse(400, "missing signature", None)
        else
          match SignatureCheck(i, c.foreign, c.secret)
          case Raised => Refuse(401, "signature verification failed", Some("signature_mismatch_exception"))
          case Failed => Refuse(401, "signature verification failed", Some("signature_mismatch"))
          case Passed => Pass(i, p)
  }

  /** The "sha256:" prefix of contentHash is optional, and only one is dropped. */
  lemma HashPrefixOptional(ms: seq<(string, Json)>, payload: Json, f: Foreign, h: string)
    requires h != "" && !HasPrefix(h, "sha256:")
    requires Lookup(ms, "contentHash").Some?
    ensures HashCheck(Obj(Assign(ms, "contentHash", Str("sha256:" + h))), payload, f) ==
            HashCheck(Obj(Assign(ms, "contentHash", Str(h))), payload, f)
    ensures HashCheck(Obj(Assign(ms, "contentHash", Str(h))), payload, f) == Passed ==>
            HashCheck(Obj(Assign(ms, "contentHash", Str("sha256:sha256:" + h))), payload, f) == Failed
  {
    var once := "sha256:" + h;
    var twice := "sha256:" + once;
    assert "sha256:sha256:" + h == twice;
    assert HasPrefix(once, "sha256:") && once[7..] == h;
    assert HasPrefix(twice, "sha256:") && twice[7..] == once;
    HashOfString(ms, payload, f, once);
    HashOfString(ms, payload, f, h);
    HashOfString(ms, payload, f, twice);
  }

  /** The content-hash check of an intention whose contentHash is set to the string `x`. */
  lemma HashOfString(ms: seq<(string, Json)>, payload: Json, f: Foreign, x: string)
    requires Lookup(ms, "contentHash").Some?
    ensures HashCheck(Obj(Assign(ms, "contentHash", Str(x))), payload, f) ==
            if x != "" && StripSha256(x) == f.sha256Hex(f.stringify(payload)) then Passed else Failed
  {
    AssignLookup(ms, "contentHash", Str(x));
  }

  /** After an assignment a present key reads the value assigned. */
  lemma {:induction false} AssignLookup(ms: seq<(string, Json)>, key: string, v: Json)
    ensures Lookup(Assign(ms, key, v), key) == if Lookup(ms, key).Some? then Some(v) else None
    decreases |ms|
  {
    if ms != [] {
      AssignLookup(ms[1..], key, v);
      assert Assign(ms, key, v)[1..] == Assign(ms[1..], key, v);
    }
  }

  /** Deleting the signature member erases whatever the signature was, so the expected signature never depends on it. */
  lemma {:induction false} SignatureFieldIgnored(ms: seq<(string, Json)>, v: Json)
    ensures Without(Assign(ms, "signature", v), "signature") == Without(ms, "signature")
    decreases |ms|
  {
    if ms != [] {
      SignatureFieldIgnored(ms[1..], v);
      assert Assign(ms, "signature", v)[1..] == Assign(ms[1..], "signature", v);
    }
  }

  /** Decoding stops at the first pair that is not hex: text after a whole hex string is not read. */
  lemma {:induction false} HexDecodeStops(s: string, junk: string)
    requires |s| % 2 == 0 && forall i :: 0 <= i < |s| ==> IsHexDigit(s[i])
    requires !(|junk| >= 2 && IsHexDigit(junk[0]) && IsHexDigit(junk[1]))
    ensures HexDecode(s + junk) == HexDecode(s)
    decreases |s|
  {
    if s == [] {
      assert s + junk == junk;
    } else {
      assert (s + junk)[2..] == s[2..] + junk;
      HexDecodeStops(s[2..], junk);
    }
  }

  /**
   * The signature the proxy computes itself is accepted, and so is that
   * signature followed by text that does not start with a hex pair: only the
   * decoded bytes are compared.
   */
  lemma ExpectedSignatureAccepted(ms: seq<(string, Json)>, f: Foreign, secret: string, junk: string)
    requires var e := ExpectedSignature(ms, f, secret);
      |e| % 2 == 0 && forall i :: 0 <= i < |e| ==> IsHexDigit(e[i])
    requires !(|junk| >= 2 && IsHexDigit(junk[0]) && IsHexDigit(junk[1]))
    requires Lookup(ms, "signature").Some?
    ensures var e := ExpectedSignature(ms, f, secret);
      SignatureCheck(Obj(Assign(ms, "signature", Str(e + junk))), f, secret) == Passed
  {
    var e := ExpectedSignature(ms, f, secret);
    var signed := Assign(ms, "signature", Str(e + junk));
    AssignLookup(ms, "signature", Str(e + junk));
    SignatureFieldIgnored(ms, Str(e + junk));
    assert ExpectedSignature(signed, f, secret) == e;
    HexDecodeStops(e, junk);
  }

  /**
   * A body whose intention carries the content hash of its payload and the
   * signature the proxy computes passes the middleware.
   */
  lemma SignedBodyPasses(ms: seq<(string, Json)>, payload: Json, c: Config)
    requires Truthy(Some(payload))
    requires Lookup(ms, "contentHash") == Some(Str(c.foreign.sha256Hex(c.foreign.stringify(payload))))
    requires c.foreign.sha256Hex(c.foreign.stringify(payload)) != ""
    requires !HasPrefix(c.foreign.sha256Hex(c.foreign.stringify(payload)), "sha256:")
    requires Lookup(ms, "signature") == Some(Str(ExpectedSignature(ms, c.foreign, c.secret)))
    requires ExpectedSignature(ms, c.foreign, c.secret) != ""
    ensures Verify(Obj([("intention", Obj(ms)), ("payload", payload)]), c) == Pass(Obj(ms), payload)
  {
    var body := Obj([("intention", Obj(ms)), ("payload", payload)]);
    assert "intention"[0] != "payload"[0];
    LookupSecond("intention", Obj(ms), "payload", payload);
    assert HashCheck(Obj(ms), payload, c.foreign) == Passed;
    assert SignatureCheck(Obj(ms), c.foreign, c.secret) == Passed;
  }

  // ---------------------------------------------------------------------
  // fastClassifier
  // ---------------------------------------------------------------------

  const Flags: seq<string> := ["kill", "bomb", "suicide", "groom", "hate", "pedo", "childporn", "terror"]

  /** toLowerCase, on the ASCII letters. */
  function ToLower(s: string): (r: string)
    ensures |r| == |s| && forall i :: 0 <= i < |s| ==> r[i] == LowerAsciiChar(s[i])
  {
    seq(|s|, i requires 0 <= i < |s| => LowerAsciiChar(s[i]))
  }

  /** How many of `words` occur in `text`, each counted once however often it occurs. */
  function CountIn(text: string, words: seq<string>): (k: nat)
    ensures k <= |words|
  {
    if words == [] then 0
    else CountIn(text, words[..|words| - 1]) + (if Contains(text, words[|words| - 1]) then 1 else 0)
  }

  /** The flag words that occur in `text`. */
  function FlagsIn(text: string): set<string> {
    set w | w in Flags && Contains(text, w)
  }

  function WordsIn(text: string, words: seq<string>): set<string> {
    set w | w in words && Contains(text, w)
  }

  lemma FlagsDistinct()
    ensures Distinct(Flags)
  {
  }

  /** Over distinct words, the count is the number of different words found. */
  lemma {:induction false} CountIsDistinctWords(text: string, words: seq<string>)
    requires Distinct(words)
    ensures CountIn(text, words) == |WordsIn(text, words)|
    decreases |words|
  {
    if words == [] {
      assert WordsIn(text, words) == {};
    } else {
      var init := words[..|words| - 1];
      var last := words[|words| - 1];
      CountIsDistinctWords(text, init);
      assert last !in init;
      var found := WordsIn(text, init);
      var added: set<string> := if Contains(text, last) then {last} else {};
      assert words == init + [last];
      assert WordsIn(text, words) == found + added by {
        forall w | w in WordsIn(text, words) ensures w in found + added {
          assert w in init + [last];
        }
      }
      assert found * added == {};
    }
  }

  /**
   * fastClassifier, with the number of flag words found in place of the
   * score: each of the eight words found in the lower-cased JSON text of the
   * payload adds once.
   */
  method FastClassifier(payload: Json, f: Foreign) returns (score: nat)
    ensures score == |FlagsIn(ToLower(f.stringify(payload)))|
    ensures score <= 8
  {
    var text := ToLower(f.stringify(payload));
    score := 0;
    for i := 0 to |Flags|
      invariant score == CountIn(text, Flags[..i])
    {
      assert Flags[..i + 1][..i] == Flags[..i];
      if Contains(text, Flags[i]) {
        score := score + 1;
      }
    }
    assert Flags[..|Flags|] == Flags;
    FlagsDistinct();
    CountIsDistinctWords(text, Flags);
    assert WordsIn(text, Flags) == FlagsIn(text);
  }

  /** The score fastClassifier returns for `flags` flag words, 0.3 each and at most 1. */
  function Score(flags: nat): real {
    if 0.3 * flags as real < 1.0 then 0.3 * flags as real else 1.0
  }

  /** QUARANTINE_THRESHOLD: a score of at least 0.5, which is two flag words or more. */
  function Quarantines(flags: nat): (q: bool)
    ensures q <==> Score(flags) >= 0.5
  {
    flags >= 2
  }

  /** A submission is quarantined exactly when its text holds two different flag words. */
  lemma QuarantineIffTwoFlags(text: string)
    ensures Quarantines(|FlagsIn(text)|) <==>
      exists a, b :: a in Flags && b in Flags && a != b && Contains(text, a) && Contains(text, b)
  {
    if Quarantines(|FlagsIn(text)|) {
      TwoFlagsFound(text);
    }
    if exists a, b :: a in Flags && b in Flags && a != b && Contains(text, a) && Contains(text, b) {
      var a, b :| a in Flags && b in Flags && a != b && Contains(text, a) && Contains(text, b);
      TwoFlagsCount(text, a, b);
    }
  }

  lemma TwoFlagsFound(text: string)
    requires |FlagsIn(text)| >= 2
    ensures exists a, b :: a in Flags && b in Flags && a != b && Contains(text, a) && Contains(text, b)
  {
    var found := FlagsIn(text);
    var a :| a in found;
    assert |found - {a}| == |found| - 1;
    var b :| b in found - {a};
    assert a in Flags && b in Flags && a != b && Contains(text, a) && Contains(text, b);
  }

  lemma TwoFlagsCount(text: string, a: string, b: string)
    requires a in Flags && b in Flags && a != b && Contains(text, a) && Contains(text, b)
    ensures |FlagsIn(text)| >= 2
  {
    assert {a, b} <= FlagsIn(text);
    assert |{a, b}| == 2;
    SubsetCardinality({a, b}, FlagsIn(text));
  }

  lemma SubsetCardinality(a: set<string>, b: set<string>)
    requires a <= b
    ensures |a| <= |b|
  {
    assert b == a + (b - a);
  }

  // ---------------------------------------------------------------------
  // The queues
  // ---------------------------------------------------------------------

  datatype Entry = Entry(qid: string, intention: Json, payload: Json, receivedAt: string, score: nat)

  datatype PublishedItem = PublishedItem(pubId: string, filename: string, intention: Json)

  /**
   * One line of cpuX_traces.jsonl: a refused submission, a received one
   * (quarantined or published, with its id), or a moderation decision, which
   * carries the new pubId when the item is published and is marked rejected
   * otherwise.
   */
  datatype Trace =
    | Refused(time: string, event: string, intention: Json)
    | Received(time: string, event: string, intention: Json, score: nat, id: string)
    | Decision(time: string, qid: Option<Json>, decision: Option<Json>, moderator: Option<Json>, note: Option<Json>, pubId: Option<string>)

  datatype Body =
    | Error(message: string)
    | QuarantinedAs(qid: string)
    | PublishedAs(pubId: string)
    | Decided(trace: Trace)
    | Item(intention: Json, payload: Json, receivedAt: string, score: nat)

  datatype Reply = Reply(status: nat, body: Body)

  /** The module-level state of the server: the two arrays and the trace file. */
  datatype Queues = Queues(quarantine: seq<Entry>, published: seq<PublishedItem>, traces: seq<Trace>)

  datatype Outcome = Outcome(queues: Queues, reply: Reply)

  /** Where a publication is written: PUBLISH_DIR/<id>.json. */
  function PublishFile(c: Config, id: string): string {
    PathJoin(c.publishDir, id + ".json")
  }

  /**
   * POST /intention/submit: the middleware, then the classifier. A refused
   * request leaves both queues alone and writes the trace its check names;
   * an accepted one goes to the end of quarantine with two flag words or
   * more and to the end of published otherwise, with one trace line.
   */
  function Submit(q: Queues, body: Json, c: Config, now: string, id: string): (o: Outcome)
    ensures !Verify(body, c).Pass? ==> o.queues.quarantine == q.quarantine && o.queues.published == q.published
    ensures Verify(body, c).Throws? ==> o.queues == q && o.reply.status == 500
    ensures Verify(body, c).Refuse? ==>
      var v := Verify(body, c);
      && o.reply == Reply(v.status, Error(v.error))
      && o.queues.traces == q.traces + (if v.event.Some? then [Refused(now, v.event.value, Get(body, "intention").value)] else [])
    ensures Verify(body, c).Pass? ==>
      var v := Verify(body, c);
      var score := |FlagsIn(ToLower(c.foreign.stringify(v.payload)))|;
      if Quarantines(score) then
        && o.queues.quarantine == q.quarantine + [Entry(id, v.intention, v.payload, now, score)]
        && o.queues.published == q.published
        && o.reply == Reply(202, QuarantinedAs(id))
        && o.queues.traces == q.traces + [Received(now, "quarantined", v.intention, score, id)]
      else
        && o.queues.quarantine == q.quarantine
        && o.queues.published == q.published + [PublishedItem(id, PublishFile(c, id), v.intention)]
        && o.reply == Reply(200, PublishedAs(id))
        && o.queues.traces == q.traces + [Received(now, "published", v.intention, score, id)]
  {
    match Verify(body, c)
    case Throws => Outcome(q, Reply(500, Error("Internal Server Error")))
    case Refuse(status, error, event) =>
      var traces := if event.Some? then q.traces + [Refused(now, event.value, Get(body, "intention").value)] else q.traces;
      Outcome(q.(traces := traces), Reply(status, Error(error)))
    case Pass(intention, payload) =>
      var score := |FlagsIn(ToLower(c.foreign.stringify(payload)))|;
      if Quarantines(score) then
        Outcome(q.(quarantine := q.quarantine + [Entry(id, intention, payload, now, score)],
                   traces := q.traces + [Received(now, "quarantined", intention, score, id)]),
                Reply(202, QuarantinedAs(id)))
      else
        Outcome(q.(published := q.published + [PublishedItem(id, PublishFile(c, id), intention)],
                   traces := q.traces + [Received(now, "published", intention, score, id)]),
                Reply(200, PublishedAs(id)))
  }

  /** `x.qid === qid`: the request's qid is a string equal to the entry's. */
  predicate QidIs(e: Entry, qid: Option<Json>) {
    qid == Some(Str(e.qid))
  }

  /** quarantine.findIndex: the first entry with the qid, or |qs| when there is none. */
  function FindQid(qs: seq<Entry>, qid: Option<Json>): (i: nat)
    ensures i <= |qs|
    ensures forall j :: 0 <= j < i ==> !QidIs(qs[j], qid)
    ensures i < |qs| ==> QidIs(qs[i], qid)
    decreases |qs|
  {
    if qs == [] then 0
    else if QidIs(qs[0], qid) then 0
    else
      var i := FindQid(qs[1..], qid);
      assert forall j :: 1 <= j < |qs| ==> qs[j] == qs[1..][j - 1];
      1 + i
  }

  /**
   * POST /moderation/decide: an unknown qid is answered 404 and nothing
   * changes. Otherwise the first entry with that qid leaves quarantine, the
   * others keep their order, and it is published when the decision is
   * "publish" and rejected otherwise; one trace line records the decision.
   */
  function Decide(q: Queues, body: Json, c: Config, now: string, id: string): (o: Outcome)
    ensures FindQid(q.quarantine, Get(body, "qid")) == |q.quarantine| ==>
      o == Outcome(q, Reply(404, Error("qid not found")))
    ensures FindQid(q.quarantine, Get(body, "qid")) < |q.quarantine| ==>
      var i := FindQid(q.quarantine, Get(body, "qid"));
      && o.queues.quarantine == q.quarantine[..i] + q.quarantine[i + 1..]
      && o.reply.status == 200
      && (Get(body, "decision") == Some(Str("publish")) ==>
            o.queues.published == q.published + [PublishedItem(id, PublishFile(c, id), q.quarantine[i].intention)])
      && (Get(body, "decision") != Some(Str("publish")) ==> o.queues.published == q.published)
      && o.reply.body.Decided?
      && o.queues.traces == q.traces + [o.reply.body.trace]
      && o.reply.body == Decided(Decision(now, Get(body, "qid"), Get(body, "decision"), Get(body, "moderator"), Get(body, "note"),
                                          if Get(body, "decision") == Some(Str("publish")) then Some(id) else None))
  {
    var qid := Get(body, "qid");
    var decision := Get(body, "decision");
    var i := FindQid(q.quarantine, qid);
    if i == |q.quarantine| then Outcome(q, Reply(404, Error("qid not found")))
    else
      var item := q.quarantine[i];
      var rest := q.quarantine[..i] + q.quarantine[i + 1..];
      var published :=
        if decision == Some(Str("publish")) then q.published + [PublishedItem(id, PublishFile(c, id), item.intention)]
        else q.published;
      var trace := Decision(now, qid, decision, Get(body, "moderator"), Get(body, "note"),
                            if decision == Some(Str("publish")) then Some(id) else None);
      Outcome(Queues(rest, published, q.traces + [trace]), Reply(200, Decided(trace)))
  }

  /** Removing position i keeps every other element, and exactly one copy of s[i] goes. */
  lemma RemoveAt<T>(s: seq<T>, i: nat)
    requires i < |s|
    ensures |s[..i] + s[i + 1..]| == |s| - 1
    ensures multiset(s[..i] + s[i + 1..]) + multiset{s[i]} == multiset(s)
    ensures forall e :: e in s && e != s[i] ==> e in s[..i] + s[i + 1..]
  {
    assert s == s[..i] + [s[i]] + s[i + 1..];
    forall e | e in s && e != s[i]
      ensures e in s[..i] + s[i + 1..]
    {
      var j :| 0 <= j < |s| && s[j] == e;
      if j < i {
        assert (s[..i] + s[i + 1..])[j] == e;
      } else {
        assert (s[..i] + s[i + 1..])[j - 1] == e;
      }
    }
  }

  /** A decision on a known qid removes exactly one entry, the first with that qid. */
  lemma DecideRemovesOne(q: Queues, body: Json, c: Config, now: string, id: string)
    requires FindQid(q.quarantine, Get(body, "qid")) < |q.quarantine|
    ensures var i := FindQid(q.quarantine, Get(body, "qid"));
      var after := Decide(q, body, c, now, id).queues.quarantine;
      && |after| == |q.quarantine| - 1
      && multiset(after) + multiset{q.quarantine[i]} == multiset(q.quarantine)
      && forall e :: e in q.quarantine && !QidIs(e, Get(body, "qid")) ==> e in after
  {
    var i := FindQid(q.quarantine, Get(body, "qid"));
    assert Decide(q, body, c, now, id).queues.quarantine == q.quarantine[..i] + q.quarantine[i + 1..];
    RemoveAt(q.quarantine, i);
  }

  /**
   * A submission that is quarantined under a fresh qid and then published by
   * a moderator leaves quarantine as it was and adds exactly that intention
   * to published.
   */
  lemma QuarantineThenPublish(q: Queues, body: Json, c: Config, now: string, qid: string, later: string, pubId: string)
    requires Verify(body, c).Pass?
    requires Quarantines(|FlagsIn(ToLower(c.foreign.stringify(Verify(body, c).payload)))|)
    requires forall e :: e in q.quarantine ==> e.qid != qid
    ensures var queued := Submit(q, body, c, now, qid).queues;
      var decided := Decide(queued, Obj([("qid", Str(qid)), ("decision", Str("publish"))]), c, later, pubId).queues;
      && decided.quarantine == q.quarantine
      && decided.published == q.published + [PublishedItem(pubId, PublishFile(c, pubId), Verify(body, c).intention)]
  {
    var queued := Submit(q, body, c, now, qid).queues;
    var request := Obj([("qid", Str(qid)), ("decision", Str("publish"))]);
    assert "qid"[0] != "decision"[0];
    LookupSecond("qid", Str(qid), "decision", Str("publish"));
    var i := FindQid(queued.quarantine, Get(request, "qid"));
    assert i == |q.quarantine| by {
        assert QidIs(queued.quarantine[|q.quarantine|], Get(request, "qid"));
    }
    assert queued.quarantine[..i] == q.quarantine;
  }

  /** Rejecting a quarantined submission takes it out of quarantine and publishes nothing. */
  lemma QuarantineThenReject(q: Queues, body: Json, c: Config, now: string, qid: string, later: string, pubId: string)
    requires Verify(body, c).Pass?
    requires Quarantines(|FlagsIn(ToLower(c.foreign.stringify(Verify(body, c).payload)))|)
    requires forall e :: e in q.quarantine ==> e.qid != qid
    ensures var queued := Submit(q, body, c, now, qid).queues;
      var decided := Decide(queued, Obj([("qid", Str(qid)), ("decision", Str("reject"))]), c, later, pubId).queues;
      && decided.quarantine == q.quarantine
      && decided.published == q.published
  {
    var queued := Submit(q, body, c, now, qid).queues;
    var request := Obj([("qid", Str(qid)), ("decision", Str("reject"))]);
    assert "qid"[0] != "decision"[0];
    LookupSecond("qid", Str(qid), "decision", Str("reject"));
    var i := FindQid(queued.quarantine, Get(request, "qid"));
    assert i == |q.quarantine| by {
        assert QidIs(queued.quarantine[|q.quarantine|], Get(request, "qid"));
    }
    assert queued.quarantine[..i] == q.quarantine;
  }

  /** The trace file only grows, by at most one line per request. */
  lemma TracesAppendOnly(q: Queues, body: Json, c: Config, now: string, id: string)
    ensures var s := Submit(q, body, c, now, id).queues.traces;
      |q.traces| <= |s| <= |q.traces| + 1 && s[..|q.traces|] == q.traces
    ensures var d := Decide(q, body, c, now, id).queues.traces;
      |q.traces| <= |d| <= |q.traces| + 1 && d[..|q.traces|] == q.traces
  {
  }

  // ---------------------------------------------------------------------
  // The read-only views
  // ---------------------------------------------------------------------

  datatype Pending = Pending(qid: string, intent: Option<Json>, client: Option<Json>, receivedAt: string, score: nat)

  datatype PublishedView = PublishedView(pubId: string, filename: string, intent: Option<Json>)

  /** The proxy's module-level state, updated in place by the two POST handlers. */
  class Proxy {
    const config: Config
    var quarantine: seq<Entry>
    var published: seq<PublishedItem>
    var traces: seq<Trace>

    function State(): Queues
      reads this
    {
      Queues(quarantine, published, traces)
    }

    /** Both arrays start empty; the secret comes from the environment. */
    constructor (foreign: Foreign, secretEnv: Option<string>, publishDir: string)
      ensures config == Config(foreign, SharedSecret(secretEnv), publishDir)
      ensures State() == Queues([], [], [])
    {
      config := Config(foreign, SharedSecret(secretEnv), publishDir);
      quarantine := [];
      published := [];
      traces := [];
    }

    method SubmitIntention(body: Json, now: string, id: string) returns (reply: Reply)
      modifies this
      ensures Outcome(State(), reply) == Submit(old(State()), body, config, now, id)
    {
      var verdict := Verify(body, config);
      match verdict
      case Throws =>
        return Reply(500, Error("Internal Server Error"));
      case Refuse(status, error, event) =>
        if event.Some? {
          traces := traces + [Refused(now, event.value, Get(body, "intention").value)];
        }
        return Reply(status, Error(error));
      case Pass(intention, payload) =>
        var score := FastClassifier(payload, config.foreign);
        if score >= 2 {
          quarantine := quarantine + [Entry(id, intention, payload, now, score)];
          traces := traces + [Received(now, "quarantined", intention, score, id)];
          return Reply(202, QuarantinedAs(id));
        }
        published := published + [PublishedItem(id, PublishFile(config, id), intention)];
        traces := traces + [Received(now, "published", intention, score, id)];
        return Reply(200, PublishedAs(id));
    }

    method DecideItem(body: Json, now: string, id: string) returns (reply: Reply)
      modifies this
      ensures Outcome(State(), reply) == Decide(old(State()), body, config, now, id)
    {
      ghost var before := State();
      var qid := Get(body, "qid");
      var decision := Get(body, "decision");
      var idx := FindQid(quarantine, qid);
      if idx == |quarantine| {
        return Reply(404, Error("qid not found"));
      }
      var item := quarantine[idx];
      quarantine := quarantine[..idx] + quarantine[idx + 1..];
      var pubId: Option<string> := None;
      if decision == Some(Str("publish")) {
        published := published + [PublishedItem(id, PublishFile(config, id), item.intention)];
        pubId := Some(id);
      }
      var trace := Decision(now, qid, decision, Get(body, "moderator"), Get(body, "note"), pubId);
      traces := traces + [trace];
      reply := Reply(200, Decided(trace));
      assert Decide(before, body, config, now, id) == Outcome(State(), reply);
    }

    /** GET /moderation/pending: one line per quarantined entry, in queue order. */
    function PendingList(): (list: seq<Pending>)
      reads this
      ensures |list| == |quarantine|
      ensures forall i :: 0 <= i < |list| ==>
        && list[i].qid == quarantine[i].qid
        && list[i].intent == Get(quarantine[i].intention, "intent")
        && list[i].client == Get(quarantine[i].intention, "clientId")
        && list[i].receivedAt == quarantine[i].receivedAt
        && list[i].score == quarantine[i].score
    {
      seq(|quarantine|, i requires 0 <= i < |quarantine| reads this =>
        Pending(quarantine[i].qid, Get(quarantine[i].intention, "intent"),
                Get(quarantine[i].intention, "clientId"), quarantine[i].receivedAt, quarantine[i].score))
    }

    /** GET /moderation/item/:qid: the first entry with that qid, or 404. */
    function ItemView(qid: string): (r: Reply)
      reads this
      ensures r.status == 404 || r.status == 200
      ensures r.status == 404 <==> forall e :: e in quarantine ==> e.qid != qid
      ensures r.status == 404 ==> r.body == Error("not found")
      ensures r.status == 200 ==>
        exists k :: 0 <= k < |quarantine| && quarantine[k].qid == qid
          && (forall j :: 0 <= j < k ==> quarantine[j].qid != qid)
          && r.body == Item(quarantine[k].intention, quarantine[k].payload, quarantine[k].receivedAt, quarantine[k].score)
    {
      var i := FindQid(quarantine, Some(Str(qid)));
      if i == |quarantine| then Reply(404, Error("not found"))
      else
        var e := quarantine[i];
        Reply(200, Item(e.intention, e.payload, e.receivedAt, e.score))
    }

    /** GET /published: every publication, in the order published. */
    function PublishedList(): (list: seq<PublishedView>)
      reads this
      ensures |list| == |published|
      ensures forall i :: 0 <= i < |list| ==>
        list[i] == PublishedView(published[i].pubId, published[i].filename, Get(published[i].intention, "intent"))
    {
      seq(|published|, i requires 0 <= i < |published| reads this =>
        PublishedView(published[i].pubId, published[i].filename, Get(published[i].intention, "intent")))
    }

    /** GET /health: the number of entries awaiting a decision. */
    function Health(): (pending: nat)
      reads this
      ensures pending == |PendingList()|
    {
      |quarantine|
    }
  }
}

/**
 * The name and path functions of iptp-go/utils.go: turning a sentence of
 * intention into a process name, sanitizing names, and shortening paths
 * under the home directory for display. Go's regular expressions are
 * written out as the searches they perform: leftmost match first, `.`
 * never matching a newline, and (?i) folding case as Go's simple case
 * folding does for the letters these patterns use.
 */
module Names {

  import opened Wrappers
  import opened Text

  /** The characters a process name may hold: [A-Za-z0-9_-]. */
  predicate Allowed(c: char) {
    ('a' <= c <= 'z') || ('A' <= c <= 'Z') || ('0' <= c <= '9') || c == '_' || c == '-'
  }

  predicate AllAllowed(s: string) {
    forall i :: 0 <= i < |s| ==> Allowed(s[i])
  }

  predicate NoneAllowed(s: string) {
    forall i :: 0 <= i < |s| ==> !Allowed(s[i])
  }

  /** What every sanitized name satisfies. */
  predicate IsProcessName(s: string) {
    s != "" && AllAllowed(s) && s[0] != '_' && s[|s| - 1] != '_'
  }

  /** `s` without its leading run of characters outside the name alphabet. */
  function SkipDisallowed(s: string): (r: string)
    ensures |r| <= |s|
    ensures r != "" ==> Allowed(r[0])
    decreases |s|
  {
    if s != "" && !Allowed(s[0]) then SkipDisallowed(s[1..]) else s
  }

  /** The regular-expression replacement of every maximal run of [^a-zA-Z0-9_-] by one "_". */
  function ReplaceRuns(s: string): (r: string)
    decreases |s|
  {
    if s == "" then ""
    else if Allowed(s[0]) then [s[0]] + ReplaceRuns(s[1..])
    else "_" + ReplaceRuns(SkipDisallowed(s[1..]))
  }

  function TrimLeftUnderscore(s: string): (r: string)
    ensures |r| <= |s| && r == s[|s| - |r|..]
    ensures r != "" ==> r[0] != '_'
    decreases |s|
  {
    if s != "" && s[0] == '_' then TrimLeftUnderscore(s[1..]) else s
  }

  function TrimRightUnderscore(s: string): (r: string)
    ensures |r| <= |s| && r == s[..|r|]
    ensures r != "" ==> r[|r| - 1] != '_'
    ensures s != "" && s[0] != '_' ==> r != "" && r[0] == s[0]
    decreases |s|
  {
    if s != "" && s[|s| - 1] == '_' then TrimRightUnderscore(s[..|s| - 1]) else s
  }

  /** strings.Trim(s, "_") */
  /** A slice of a string of allowed characters holds only allowed characters. */
  lemma SliceAllowed(s: string, a: nat, b: nat)
    requires a <= b <= |s|
    ensures AllAllowed(s) ==> AllAllowed(s[a..b])
  {
    if AllAllowed(s) {
      forall i | 0 <= i < b - a ensures Allowed(s[a..b][i]) {
        assert s[a..b][i] == s[a + i];
      }
    }
  }

  function TrimUnderscores(s: string): (r: string)
    ensures |r| <= |s|
    ensures AllAllowed(s) ==> AllAllowed(r)
    ensures r != "" ==> r[0] != '_' && r[|r| - 1] != '_'
  {
    var l := TrimLeftUnderscore(s);
    var r := TrimRightUnderscore(l);
    SliceAllowed(s, |s| - |l|, |s|);
    SliceAllowed(l, 0, |r|);
    r
  }

  /**
   * sanitizeProcessName: runs of other characters become "_", leading and
   * trailing "_" are removed, and a name with nothing left is "unnamed".
   */
  function Sanitize(name: string): (r: string)
    ensures IsProcessName(r)
  {
    ReplaceRunsAllowed(name);
    var t := TrimUnderscores(ReplaceRuns(name));
    if t == "" then Unnamed() else t
  }

  function Unnamed(): (r: string)
    ensures IsProcessName(r)
  {
    var u := "unnamed";
    assert forall i :: 0 <= i < |u| ==> 'a' <= u[i] <= 'z';
    u
  }

  /** The replacement leaves only characters of the alphabet. */
  lemma {:induction false} ReplaceRunsAllowed(s: string)
    ensures AllAllowed(ReplaceRuns(s))
    decreases |s|
  {
    if s != "" {
      if Allowed(s[0]) {
        ReplaceRunsAllowed(s[1..]);
      } else {
        ReplaceRunsAllowed(SkipDisallowed(s[1..]));
      }
    }
  }

  lemma {:induction false} ReplaceRunsKeepsNames(s: string)
    requires AllAllowed(s)
    ensures ReplaceRuns(s) == s
    decreases |s|
  {
    if s != "" {
      ReplaceRunsKeepsNames(s[1..]);
      assert s == [s[0]] + s[1..];
    }
  }

  lemma {:induction false} TrimLeftKeeps(s: string)
    requires s == "" || s[0] != '_'
    ensures TrimLeftUnderscore(s) == s
  {
  }

  lemma {:induction false} TrimRightKeeps(s: string)
    requires s == "" || s[|s| - 1] != '_'
    ensures TrimRightUnderscore(s) == s
  {
  }

  /** A well-formed name is its own sanitized form. */
  lemma SanitizeKeepsNames(s: string)
    requires IsProcessName(s)
    ensures Sanitize(s) == s
  {
    ReplaceRunsKeepsNames(s);
    TrimLeftKeeps(s);
    TrimRightKeeps(s);
  }

  /** Sanitizing twice is sanitizing once. */
  lemma SanitizeIdempotent(s: string)
    ensures Sanitize(Sanitize(s)) == Sanitize(s)
  {
    SanitizeKeepsNames(Sanitize(s));
  }

  lemma {:induction false} SkipAppend(x: string, y: string)
    requires SkipDisallowed(x) != ""
    ensures SkipDisallowed(x + y) == SkipDisallowed(x) + y
    decreases |x|
  {
    if x != "" && !Allowed(x[0]) {
      assert (x + y)[1..] == x[1..] + y;
      SkipAppend(x[1..], y);
    }
  }

  lemma {:induction false} SkipWholeRun(d: string, v: string)
    requires NoneAllowed(d)
    requires v == "" || Allowed(v[0])
    ensures SkipDisallowed(d + v) == v
    decreases |d|
  {
    if d != "" {
      assert (d + v)[1..] == d[1..] + v;
      SkipWholeRun(d[1..], v);
    } else {
      assert d + v == v;
    }
  }

  /**
   * Replacement works piece by piece across a boundary that follows an
   * allowed character: no run straddles it.
   */
  lemma {:induction false} ReplaceRunsAppend(u: string, x: string)
    requires u == "" || Allowed(u[|u| - 1])
    ensures ReplaceRuns(u + x) == ReplaceRuns(u) + ReplaceRuns(x)
    decreases |u|
  {
    if u == "" {
      assert u + x == x;
    } else if Allowed(u[0]) {
      ReplaceRunsAppend(u[1..], x);
      AllowedHead(u, x);
      assert ReplaceRuns(u) == [u[0]] + ReplaceRuns(u[1..]);
    } else {
      SkipNotEmpty(u[1..]);
      var k := SkipDisallowed(u[1..]);
      SkipIsSuffix(u[1..]);
      assert k[|k| - 1] == u[|u| - 1];
      ReplaceRunsAppend(k, x);
      DisallowedHead(u, x);
      assert ReplaceRuns(u) == "_" + ReplaceRuns(k);
    }
  }

  /**
   * Each maximal run of characters outside the alphabet becomes exactly one
   * "_": between a part ending in an allowed character and a part starting
   * with one, a non-empty run contributes a single "_".
   */
  lemma ReplaceRunsOfRun(u: string, d: string, v: string)
    requires u == "" || Allowed(u[|u| - 1])
    requires d != "" && NoneAllowed(d)
    requires v == "" || Allowed(v[0])
    ensures ReplaceRuns(u + d + v) == ReplaceRuns(u) + "_" + ReplaceRuns(v)
  {
    var tail := d + v;
    calc {
      ReplaceRuns(u + d + v);
      { assert u + d + v == u + tail; }
      ReplaceRuns(u + tail);
      { ReplaceRunsAppend(u, tail); }
      ReplaceRuns(u) + ReplaceRuns(tail);
      { RunAtStart(d, v); }
      ReplaceRuns(u) + ("_" + ReplaceRuns(v));
      ReplaceRuns(u) + "_" + ReplaceRuns(v);
    }
  }

  /** A string starting with a run of disallowed characters: one "_", then the rest. */
  lemma RunAtStart(d: string, v: string)
    requires d != "" && NoneAllowed(d)
    requires v == "" || Allowed(v[0])
    ensures ReplaceRuns(d + v) == "_" + ReplaceRuns(v)
  {
    assert (d + v)[0] == d[0];
    assert (d + v)[1..] == d[1..] + v;
    SkipWholeRun(d[1..], v);
  }

  lemma AllowedHead(u: string, x: string)
    requires u != "" && Allowed(u[0])
    ensures ReplaceRuns(u + x) == [u[0]] + ReplaceRuns(u[1..] + x)
  {
    assert (u + x)[0] == u[0];
    assert (u + x)[1..] == u[1..] + x;
  }

  lemma DisallowedHead(u: string, x: string)
    requires u != "" && !Allowed(u[0])
    requires SkipDisallowed(u[1..]) != ""
    ensures ReplaceRuns(u + x) == "_" + ReplaceRuns(SkipDisallowed(u[1..]) + x)
  {
    var w := u + x;
    assert w[0] == u[0];
    assert w[1..] == u[1..] + x;
    assert ReplaceRuns(w) == "_" + ReplaceRuns(SkipDisallowed(w[1..]));
    SkipAppend(u[1..], x);
  }

  /** SkipDisallowed drops a prefix: what it keeps is a suffix. */
  lemma {:induction false} SkipIsSuffix(s: string)
    ensures var r := SkipDisallowed(s); r == s[|s| - |r|..]
    decreases |s|
  {
    if s != "" && !Allowed(s[0]) {
      SkipIsSuffix(s[1..]);
      var k := |s| - |SkipDisallowed(s)|;
      assert s[1..][k - 1..] == s[k..];
    }
  }

  /** What SkipDisallowed drops holds only characters outside the alphabet. */
  lemma {:induction false} SkipDropsDisallowed(s: string)
    ensures var r := SkipDisallowed(s); NoneAllowed(s[..|s| - |r|])
    decreases |s|
  {
    if s != "" && !Allowed(s[0]) {
      SkipDropsDisallowed(s[1..]);
      var k := |s| - |SkipDisallowed(s)|;
      assert s[..k] == [s[0]] + s[1..][..k - 1];
    }
  }

  lemma SkipNotEmpty(s: string)
    requires s != "" && Allowed(s[|s| - 1])
    ensures SkipDisallowed(s) != ""
  {
    SkipDropsDisallowed(s);
  }

  /**
   * Pattern characters are lower-case ASCII letters and spaces. Under (?i)
   * a letter also matches its upper case, and Go's simple case folding adds
   * U+212A KELVIN SIGN to 'k' and U+017F LATIN SMALL LETTER LONG S to 's'.
   */
  predicate FoldMatch(p: char, c: char) {
    c == p
    || ('a' <= p <= 'z' && c as int == p as int - 32)
    || (p == 'k' && c as int == 0x212A)
    || (p == 's' && c as int == 0x017F)
  }

  /** The literal `pat` matches `s` case-insensitively at position `i`. */
  predicate LitAt(s: string, i: nat, pat: string) {
    i + |pat| <= |s| && forall j :: 0 <= j < |pat| ==> FoldMatch(pat[j], s[i + j])
  }

  /** Where the line holding position `i` ends: the next newline, or the end of `s`. */
  function LineEnd(s: string, i: nat): (e: nat)
    requires i <= |s|
    ensures i <= e <= |s|
    ensures forall k :: i <= k < e ==> s[k] != '\n'
    ensures e < |s| ==> s[e] == '\n'
  {
    var k := IndexOf(s[i..], '\n');
    assert forall m :: i <= m < i + k ==> s[m] == s[i..][..k][m - i];
    i + k
  }

  /**
   * The first of `heads` that matches at `p` and is followed by at least one
   * character of the same line, and the rest of that line: `(h1|h2|...)(.+)`
   * tried at one position.
   */
  function TailAt(s: string, p: nat, heads: seq<string>): Option<string>
    requires p <= |s|
    decreases |heads|
  {
    if heads == [] then None
    else
      var h := heads[0];
      if LitAt(s, p, h) && LineEnd(s, p + |h|) > p + |h| then Some(s[p + |h|..LineEnd(s, p + |h|)])
      else TailAt(s, p, heads[1..])
  }

  /** The leftmost match of `(h1|h2|...)(.+)` at or after `p`, and its group. */
  function FirstTail(s: string, p: nat, heads: seq<string>): Option<string>
    requires p <= |s|
    decreases |s| - p
  {
    var here := TailAt(s, p, heads);
    if here.Some? then here
    else if p == |s| then None
    else FirstTail(s, p + 1, heads)
  }

  /**
   * The greedy group of `(.+) session` started at `p`: the last " session"
   * of the same line that begins after `p`, searched downward from `q`.
   */
  function LastSessionFrom(s: string, p: nat, q: nat): (r: Option<nat>)
    requires p < q <= |s|
    ensures r.Some? ==> p < r.value < q
    decreases q - p
  {
    if LitAt(s, q - 1, " session") && q - 1 > p then Some(q - 1)
    else if q - 1 <= p + 1 then None
    else LastSessionFrom(s, p, q - 1)
  }

  function SessionAt(s: string, p: nat): Option<string>
    requires p <= |s|
  {
    var e := LineEnd(s, p);
    if e <= p + 1 then None
    else match LastSessionFrom(s, p, e)
      case Some(q) => Some(s[p..q])
      case None => None
  }

  /** The leftmost match of `(.+) session` at or after `p`, and its group. */
  function FirstSession(s: string, p: nat): Option<string>
    requires p <= |s|
    decreases |s| - p
  {
    var here := SessionAt(s, p);
    if here.Some? then here
    else if p == |s| then None
    else FirstSession(s, p + 1)
  }

  const IAmWorking: seq<string> := ["i am working in ", "i am working on "]
  const Working: seq<string> := ["working in ", "working on "]
  const WantToWork: seq<string> := ["i want to work on "]
  const Activities: seq<string> := ["debugging ", "investigating ", "building ", "developing ", "fixing "]

  /** One of the regular expressions of ParseIntention. */
  datatype Pattern = Tail(heads: seq<string>) | SessionSuffix

  /** The patterns in the order ParseIntention tries them. */
  const Patterns: seq<Pattern> :=
    [Tail(IAmWorking), Tail(Working), Tail(WantToWork), Tail(Activities), SessionSuffix]

  /** The group of the leftmost match of one pattern. */
  function MatchOf(t: string, p: Pattern): Option<string> {
    match p
    case Tail(heads) => FirstTail(t, 0, heads)
    case SessionSuffix => FirstSession(t, 0)
  }

  /** The group of the first pattern in `ps` that matches at all. */
  function FirstMatch(t: string, ps: seq<Pattern>): (m: Option<string>)
    ensures ps == [] ==> m == None
    ensures ps != [] && MatchOf(t, ps[0]).Some? ==> m == MatchOf(t, ps[0])
    decreases |ps|
  {
    if ps == [] then None
    else
      var m := MatchOf(t, ps[0]);
      if m.Some? then m else FirstMatch(t, ps[1..])
  }

  /**
   * ParseIntention: a trimmed input without a space is sanitized as it is;
   * otherwise the first pattern that matches names the process, in the
   * order "I am working in/on X", "working in/on X", "I want to work on X",
   * "(debugging|investigating|building|developing|fixing) X", "X session",
   * and the last word is the fallback. Every branch ends in Sanitize.
   */
  function ParseIntention(intention: string): (r: string)
    ensures IsProcessName(r)
  {
    var t := TrimSpace(intention);
    if ' ' !in t then Sanitize(t)
    else
      match FirstMatch(t, Patterns)
      case Some(g) => Sanitize(g)
      case None =>
        var parts := Fields(t);
        if |parts| > 0 then Sanitize(parts[|parts| - 1]) else Sanitize(t)
  }

  /** No head that occurs at `p` means no match of the alternation at `p`. */
  lemma {:induction false} TailAtNone(s: string, p: nat, heads: seq<string>)
    requires p <= |s|
    requires forall k :: 0 <= k < |heads| ==> !LitAt(s, p, heads[k])
    ensures TailAt(s, p, heads) == None
    decreases |heads|
  {
    if heads != [] {
      assert forall k :: 0 <= k < |heads[1..]| ==> heads[1..][k] == heads[k + 1];
      TailAtNone(s, p, heads[1..]);
    }
  }

  /** The first head that occurs at `p` with more of its line after it gives the alternation's group. */
  lemma {:induction false} TailAtFirst(s: string, p: nat, heads: seq<string>, k: nat)
    requires p <= |s| && k < |heads|
    requires LitAt(s, p, heads[k]) && LineEnd(s, p + |heads[k]|) > p + |heads[k]|
    requires forall m :: 0 <= m < k ==> !LitAt(s, p, heads[m])
    ensures TailAt(s, p, heads) == Some(s[p + |heads[k]|..LineEnd(s, p + |heads[k]|)])
    decreases k
  {
    if k > 0 {
      assert heads[1..][k - 1] == heads[k];
      assert forall m :: 0 <= m < k - 1 ==> heads[1..][m] == heads[m + 1];
      TailAtFirst(s, p, heads[1..], k - 1);
    }
  }

  /** The search for `(h1|h2|...)(.+)` from `p` fails when the alternation matches at no later position. */
  lemma {:induction false} FirstTailNone(s: string, p: nat, heads: seq<string>)
    requires p <= |s|
    requires forall i :: p <= i <= |s| ==> TailAt(s, i, heads).None?
    ensures FirstTail(s, p, heads) == None
    decreases |s| - p
  {
    if p < |s| {
      FirstTailNone(s, p + 1, heads);
    }
  }

  /** The downward search finds the last " session" below `q` that begins after `p`. */
  lemma {:induction false} LastSessionFromLast(s: string, p: nat, q: nat, k: nat)
    requires p < k < q <= |s| && LitAt(s, k, " session")
    requires forall j :: k < j < q ==> !LitAt(s, j, " session")
    ensures LastSessionFrom(s, p, q) == Some(k)
    decreases q - k
  {
    if q - 1 != k {
      LastSessionFromLast(s, p, q - 1, k);
    }
  }

  /** Without " session" anywhere after `p`, the pattern `(.+) session` does not match from `p` on. */
  lemma {:induction false} FirstSessionNone(s: string, p: nat)
    requires p <= |s|
    requires forall j :: p < j <= |s| ==> !LitAt(s, j, " session")
    ensures FirstSession(s, p) == None
    decreases |s| - p
  {
    var e := LineEnd(s, p);
    if e > p + 1 {
      LastSessionFromNone(s, p, e);
    }
    if p < |s| {
      FirstSessionNone(s, p + 1);
    }
  }

  /** The downward search finds nothing when no " session" begins strictly between `p` and `q`. */
  lemma {:induction false} LastSessionFromNone(s: string, p: nat, q: nat)
    requires p < q <= |s|
    requires forall j :: p < j < q ==> !LitAt(s, j, " session")
    ensures LastSessionFrom(s, p, q) == None
    decreases q - p
  {
    if q - 1 > p + 1 {
      LastSessionFromNone(s, p, q - 1);
    }
  }

  /** FirstMatch finds nothing exactly when no pattern of `ps` matches. */
  lemma {:induction false} FirstMatchNone(t: string, ps: seq<Pattern>)
    ensures FirstMatch(t, ps).None? <==> forall i :: 0 <= i < |ps| ==> MatchOf(t, ps[i]).None?
    decreases |ps|
  {
    if ps != [] {
      FirstMatchNone(t, ps[1..]);
      assert forall i :: 1 <= i < |ps| ==> ps[i] == ps[1..][i - 1];
    }
  }

  /** The first pattern of `ps` that matches gives FirstMatch's group; the ones after it are not consulted. */
  lemma {:induction false} FirstMatchFirst(t: string, ps: seq<Pattern>, k: nat)
    requires k < |ps| && MatchOf(t, ps[k]).Some?
    requires forall j :: 0 <= j < k ==> MatchOf(t, ps[j]).None?
    ensures FirstMatch(t, ps) == MatchOf(t, ps[k])
    decreases k
  {
    if k > 0 {
      assert ps[1..][k - 1] == ps[k];
      assert forall j :: 0 <= j < k - 1 ==> ps[1..][j] == ps[j + 1];
      FirstMatchFirst(t, ps[1..], k - 1);
    }
  }

  /** A group FirstMatch returns comes from a pattern that matches, with no earlier pattern matching. */
  lemma {:induction false} FirstMatchFrom(t: string, ps: seq<Pattern>, g: string)
    requires FirstMatch(t, ps) == Some(g)
    ensures exists k :: 0 <= k < |ps| && MatchOf(t, ps[k]) == Some(g) && (forall j :: 0 <= j < k ==> MatchOf(t, ps[j]).None?)
    decreases |ps|
  {
    if MatchOf(t, ps[0]).Some? {
      assert MatchOf(t, ps[0]) == Some(g);
    } else {
      FirstMatchFrom(t, ps[1..], g);
      var k :| 0 <= k < |ps[1..]| && MatchOf(t, ps[1..][k]) == Some(g)
        && (forall j :: 0 <= j < k ==> MatchOf(t, ps[1..][j]).None?);
      assert ps[k + 1] == ps[1..][k];
      assert forall j :: 1 <= j < k + 1 ==> ps[j] == ps[1..][j - 1];
    }
  }

  /**
   * In a multi-word intention the first of the five patterns that matches
   * names the process, whatever the later patterns would give.
   */
  lemma IntentionFirstPattern(intention: string, k: nat, g: string)
    requires var t := TrimSpace(intention);
      ' ' in t && k < |Patterns| && MatchOf(t, Patterns[k]) == Some(g)
      && forall j :: 0 <= j < k ==> MatchOf(TrimSpace(intention), Patterns[j]).None?
    ensures ParseIntention(intention) == Sanitize(g)
    ensures IsProcessName(g) ==> ParseIntention(intention) == g
  {
    FirstMatchFirst(TrimSpace(intention), Patterns, k);
    if IsProcessName(g) {
      SanitizeKeepsNames(g);
    }
  }

  /**
   * A multi-word intention that none of the five patterns matches is named
   * by its last word.
   */
  lemma IntentionLastWord(intention: string)
    requires var t := TrimSpace(intention);
      ' ' in t && forall j :: 0 <= j < |Patterns| ==> MatchOf(TrimSpace(intention), Patterns[j]).None?
    ensures var parts := Fields(TrimSpace(intention));
      |parts| > 0 && ParseIntention(intention) == Sanitize(parts[|parts| - 1])
    ensures var parts := Fields(TrimSpace(intention));
      |parts| > 0 && IsProcessName(parts[|parts| - 1]) ==> ParseIntention(intention) == parts[|parts| - 1]
  {
    var t := TrimSpace(intention);
    FirstMatchNone(t, Patterns);
    assert t != "" && !IsSpace(t[0]);
    assert |Fields(t)| > 0;
    if IsProcessName(Fields(t)[|Fields(t)| - 1]) {
      SanitizeKeepsNames(Fields(t)[|Fields(t)| - 1]);
    }
  }

  /** A word of lower-case letters is a process name. */
  lemma LowercaseIsName(w: string)
    requires w != "" && forall i :: 0 <= i < |w| ==> 'a' <= w[i] <= 'z'
    ensures IsProcessName(w)
  {
  }

  /** A text shorter than every head matches the alternation nowhere. */
  lemma TooShortForTail(u: string, heads: seq<string>)
    requires forall k :: 0 <= k < |heads| ==> |heads[k]| > |u|
    ensures FirstTail(u, 0, heads) == None
  {
    forall i | 0 <= i <= |u|
      ensures TailAt(u, i, heads).None?
    {
      TailAtNone(u, i, heads);
    }
    FirstTailNone(u, 0, heads);
  }

  /** A text shorter than "fixing ", the shortest literal of the five patterns, matches none of them. */
  lemma ShortMatchesNothing(u: string)
    requires |u| < 7
    ensures forall j :: 0 <= j < |Patterns| ==> MatchOf(u, Patterns[j]).None?
  {
    forall j | 0 <= j < |Patterns|
      ensures MatchOf(u, Patterns[j]).None?
    {
      if j < 4 {
        TooShortForTail(u, Patterns[j].heads);
      } else {
        FirstSessionNone(u, 0);
      }
    }
  }

  /** "a b" is too short for any pattern, and "b" is its last field. */
  lemma PlainWordsMatchNothing(u: string)
    requires u == "a b"
    ensures ' ' in u && Fields(u) == ["a", "b"]
    ensures forall j :: 0 <= j < |Patterns| ==> MatchOf(u, Patterns[j]).None?
  {
    ShortMatchesNothing(u);
    assert Fields(u) == ["a", "b"] by {
      assert u == "a" + " b";
      FieldsAfterWord("a", " b");
      FieldsLeadingSpace("b");
      FieldsOfWord("b");
    }
    assert u[1] == ' ';
  }

  /** The last-word fallback: " a b" matches none of the patterns and names the process "b". */
  lemma LastWordExample(t: string)
    requires t == " a b"
    ensures ParseIntention(t) == "b"
  {
    LowercaseIsName("b");
    TrimSpaceLeadingBlank(t);
    PlainWordsMatchNothing(TrimSpace(t));
    IntentionLastWord(t);
  }

  /** "i am working in/on" occurs nowhere in "i want to work on x". */
  lemma WantToWorkNotIAmWorking(u: string)
    requires u == "i want to work on x"
    ensures MatchOf(u, Patterns[0]).None?
  {
    forall i | 0 <= i <= |u|
      ensures TailAt(u, i, IAmWorking).None?
    {
      if i == 0 {
        assert !FoldMatch("i am working in "[2], u[2]) && !FoldMatch("i am working on "[2], u[2]);
      } else if i == 1 {
        assert !FoldMatch("i am working in "[0], u[1]) && !FoldMatch("i am working on "[0], u[1]);
      } else if i == 2 {
        assert !FoldMatch("i am working in "[0], u[2]) && !FoldMatch("i am working on "[0], u[2]);
      } else if i == 3 {
        assert !FoldMatch("i am working in "[0], u[3]) && !FoldMatch("i am working on "[0], u[3]);
      }
      TailAtNone(u, i, IAmWorking);
    }
    FirstTailNone(u, 0, IAmWorking);
  }

  /** Nor does "working in/on". */
  lemma WantToWorkNotWorking(u: string)
    requires u == "i want to work on x"
    ensures MatchOf(u, Patterns[1]).None?
  {
    forall i | 0 <= i <= |u|
      ensures TailAt(u, i, Working).None?
    {
      if i == 0 {
        assert !FoldMatch("working in "[0], u[0]) && !FoldMatch("working on "[0], u[0]);
      } else if i == 1 {
        assert !FoldMatch("working in "[0], u[1]) && !FoldMatch("working on "[0], u[1]);
      } else if i == 2 {
        assert !FoldMatch("working in "[1], u[3]) && !FoldMatch("working on "[1], u[3]);
      } else if i == 3 {
        assert !FoldMatch("working in "[0], u[3]) && !FoldMatch("working on "[0], u[3]);
      } else if i == 4 {
        assert !FoldMatch("working in "[0], u[4]) && !FoldMatch("working on "[0], u[4]);
      } else if i == 5 {
        assert !FoldMatch("working in "[0], u[5]) && !FoldMatch("working on "[0], u[5]);
      } else if i == 6 {
        assert !FoldMatch("working in "[0], u[6]) && !FoldMatch("working on "[0], u[6]);
      } else if i == 7 {
        assert !FoldMatch("working in "[0], u[7]) && !FoldMatch("working on "[0], u[7]);
      } else if i == 8 {
        assert !FoldMatch("working in "[0], u[8]) && !FoldMatch("working on "[0], u[8]);
      }
      TailAtNone(u, i, Working);
    }
    FirstTailNone(u, 0, Working);
  }

  /** In "i want to work on x" the third pattern matches at the start with the group "x". */
  lemma WantToWorkFindsGroup(u: string)
    requires u == "i want to work on x"
    ensures TailAt(u, 0, WantToWork) == Some("x")
  {
    assert LitAt(u, 0, WantToWork[0]) by {
      assert forall j :: 0 <= j < |WantToWork[0]| ==> u[j] == WantToWork[0][j];
    }
    assert LineEnd(u, 18) == 19 by {
      assert IndexOf(u[18..], '\n') == 1;
    }
    TailAtFirst(u, 0, WantToWork, 0);
    assert u[18..19] == "x";
  }

  /** The third pattern matches "i want to work on x" with the group "x", and no earlier pattern does. */
  lemma WantToWorkMatches(u: string)
    requires u == "i want to work on x"
    ensures ' ' in u && MatchOf(u, Patterns[2]) == Some("x")
    ensures forall j :: 0 <= j < 2 ==> MatchOf(u, Patterns[j]).None?
  {
    WantToWorkFindsGroup(u);
    assert u[1] == ' ';
    WantToWorkNotIAmWorking(u);
    WantToWorkNotWorking(u);
  }

  /** The third pattern: " i want to work on x" names the process "x". */
  lemma WantToWorkExample(t: string)
    requires t == " i want to work on x"
    ensures ParseIntention(t) == "x"
  {
    LowercaseIsName("x");
    TrimSpaceLeadingBlank(t);
    WantToWorkMatches(TrimSpace(t));
    IntentionFirstPattern(t, 2, "x");
  }

  /** In "fixing bug" the activity alternation matches at the start with the group "bug". */
  lemma FixingFindsGroup(u: string)
    requires u == "fixing bug"
    ensures TailAt(u, 0, Activities) == Some("bug")
  {
    assert LitAt(u, 0, Activities[4]) by {
      assert forall j :: 0 <= j < |Activities[4]| ==> u[j] == Activities[4][j];
    }
    assert LineEnd(u, 7) == 10 by {
      assert IndexOf(u[7..], '\n') == 3;
    }
    assert !FoldMatch(Activities[0][0], u[0]) && !FoldMatch(Activities[2][0], u[0]);
    TailAtFirst(u, 0, Activities, 4);
    assert u[7..10] == "bug";
  }

  /** In "fixing bug" the three working patterns are too long to occur, and the activity pattern gives "bug". */
  lemma FixingBugMatches(u: string)
    requires u == "fixing bug"
    ensures ' ' in u && MatchOf(u, Patterns[3]) == Some("bug")
    ensures forall j :: 0 <= j < 3 ==> MatchOf(u, Patterns[j]).None?
  {
    assert forall j :: 0 <= j < 3 ==> MatchOf(u, Patterns[j]).None? by {
      forall j | 0 <= j < 3
        ensures MatchOf(u, Patterns[j]).None?
      {
        TooShortForTail(u, Patterns[j].heads);
      }
    }
    FixingFindsGroup(u);
    assert u[6] == ' ';
  }

  /** The activity pattern: " fixing bug" names the process "bug". */
  lemma ActivityExample(t: string)
    requires t == " fixing bug"
    ensures ParseIntention(t) == "bug"
  {
    LowercaseIsName("bug");
    TrimSpaceLeadingBlank(t);
    FixingBugMatches(TrimSpace(t));
    IntentionFirstPattern(t, 3, "bug");
  }

  /** No activity word occurs in "a session". */
  lemma SessionNoActivity(u: string)
    requires u == "a session"
    ensures MatchOf(u, Patterns[3]).None?
  {
    forall i | 0 <= i <= |u|
      ensures TailAt(u, i, Activities).None?
    {
      if i <= 2 {
        assert !FoldMatch(Activities[4][0], u[i]);
        if i == 0 {
          assert !FoldMatch(Activities[2][0], u[0]);
        }
      }
      TailAtNone(u, i, Activities);
    }
    FirstTailNone(u, 0, Activities);
  }

  /** In "a session" the pattern `(.+) session` matches at the start with the group "a". */
  lemma SessionFindsGroup(u: string)
    requires u == "a session"
    ensures FirstSession(u, 0) == Some("a")
  {
    assert LitAt(u, 1, " session") && LineEnd(u, 0) == 9;
    LastSessionFromLast(u, 0, 9, 1);
    assert u[0..1] == "a";
  }

  /** In "a session" no working phrase or activity word occurs, and `(.+) session` gives "a". */
  lemma SessionMatches(u: string)
    requires u == "a session"
    ensures ' ' in u && MatchOf(u, Patterns[4]) == Some("a")
    ensures forall j :: 0 <= j < 4 ==> MatchOf(u, Patterns[j]).None?
  {
    assert forall j :: 0 <= j < 3 ==> MatchOf(u, Patterns[j]).None? by {
      forall j | 0 <= j < 3
        ensures MatchOf(u, Patterns[j]).None?
      {
        TooShortForTail(u, Patterns[j].heads);
      }
    }
    SessionNoActivity(u);
    SessionFindsGroup(u);
    assert u[1] == ' ';
  }

  /** The session pattern: " a session" names the process "a". */
  lemma SessionExample(t: string)
    requires t == " a session"
    ensures ParseIntention(t) == "a"
  {
    LowercaseIsName("a");
    TrimSpaceLeadingBlank(t);
    SessionMatches(TrimSpace(t));
    IntentionFirstPattern(t, 4, "a");
  }

  /**
   * An intention of one word is only sanitized, so a word that is already a
   * process name (as in `name auth`) names the process itself.
   */
  lemma SingleWordIntention(intention: string)
    requires ' ' !in TrimSpace(intention)
    ensures ParseIntention(intention) == Sanitize(TrimSpace(intention))
    ensures IsProcessName(TrimSpace(intention)) ==> ParseIntention(intention) == TrimSpace(intention)
  {
    if IsProcessName(TrimSpace(intention)) {
      SanitizeKeepsNames(TrimSpace(intention));
    }
  }

  /** A head that matches at `p`, with more of its line after it, makes the alternation match at `p`. */
  lemma {:induction false} TailAtFinds(s: string, p: nat, heads: seq<string>, h: string)
    requires p <= |s| && h in heads && LitAt(s, p, h) && LineEnd(s, p + |h|) > p + |h|
    ensures TailAt(s, p, heads).Some?
    decreases |heads|
  {
    if heads[0] != h {
      assert h in heads[1..];
      TailAtFinds(s, p, heads[1..], h);
    }
  }

  /** The search for `(h1|h2|...)(.+)` succeeds whenever one of the heads occurs at or after `p` with more of its line after it. */
  lemma {:induction false} FirstTailFinds(s: string, p: nat, heads: seq<string>, k: nat, h: string)
    requires p <= k <= |s| && h in heads && LitAt(s, k, h) && LineEnd(s, k + |h|) > k + |h|
    ensures FirstTail(s, p, heads).Some?
    decreases k - p
  {
    if p == k {
      TailAtFinds(s, k, heads, h);
    } else if TailAt(s, p, heads).None? {
      FirstTailFinds(s, p + 1, heads, k, h);
    }
  }

  /**
   * The patterns are tried in order, not by position: once "working in" or
   * "working on" (in any case) occurs in a multi-word intention with more
   * text after it on its line, one of the first two patterns names the
   * process, and the activity words, "session" and the last-word fallback
   * are never consulted.
   */
  lemma WorkingPhraseDecides(intention: string, k: nat, h: string)
    requires var t := TrimSpace(intention);
      ' ' in t && h in Working && k <= |t| && LitAt(t, k, h) && LineEnd(t, k + |h|) > k + |h|
    ensures var t := TrimSpace(intention);
      exists g :: (FirstTail(t, 0, IAmWorking) == Some(g) || FirstTail(t, 0, Working) == Some(g))
        && ParseIntention(intention) == Sanitize(g)
  {
    var t := TrimSpace(intention);
    FirstTailFinds(t, 0, Working, k, h);
    assert Patterns[0] == Tail(IAmWorking) && Patterns[1..][0] == Tail(Working);
    if FirstTail(t, 0, IAmWorking).Some? {
      var g := FirstTail(t, 0, IAmWorking).value;
      assert FirstMatch(t, Patterns) == Some(g);
      assert ParseIntention(intention) == Sanitize(g);
    } else {
      var g := FirstTail(t, 0, Working).value;
      assert FirstMatch(t, Patterns) == FirstMatch(t, Patterns[1..]) == Some(g);
      assert ParseIntention(intention) == Sanitize(g);
    }
  }

  /**
   * FormatPath with the home directory as input (None when it cannot be
   * determined): a path with the home directory as a plain string prefix
   * is shown with "~" in its place.
   */
  function FormatPath(path: string, home: Option<string>): (r: string)
    ensures home.None? || !HasPrefix(path, home.value) ==> r == path
    ensures home.Some? && HasPrefix(path, home.value) ==> |r| >= 1 && r[0] == '~' && home.value + r[1..] == path
  {
    match home
    case None => path
    case Some(h) =>
      if HasPrefix(path, h) then
        var r := "~" + path[|h|..];
        assert h + r[1..] == path by {
          assert r[1..] == path[|h|..];
          assert path == path[..|h|] + path[|h|..];
        }
        r
      else path
  }

  /** The prefix test is on characters, not path components: /home/alicex under /home/alice shows as ~x. */
  lemma FormatPathIsPlainPrefix()
    ensures FormatPath("/home/alicex", Some("/home/alice")) == "~x"
  {
    assert HasPrefix("/home/alicex", "/home/alice") by {
      assert "/home/alicex"[..|"/home/alice"|] == "/home/alice";
    }
    assert "/home/alicex"[|"/home/alice"|..] == "x";
  }
}

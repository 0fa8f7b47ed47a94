/**
 * The parts of Go's `strings`, `unicode` and `fmt` packages that the shell
 * and hotspot code lean on, written out so that the behaviour of the source
 * at whitespace, separators and prefixes is exact.
 */
module Text {

  import opened Wrappers

  /** Go's unicode.IsSpace: the Latin-1 spaces plus the Unicode White_Space characters above U+00FF. */
  predicate IsSpace(c: char) {
    var n := c as int;
    n == 0x09 || n == 0x0A || n == 0x0B || n == 0x0C || n == 0x0D || n == 0x20 || n == 0x85 || n == 0xA0
    || n == 0x1680 || (0x2000 <= n <= 0x200A) || n == 0x2028 || n == 0x2029 || n == 0x202F
    || n == 0x205F || n == 0x3000
  }

  predicate NoSpace(s: string) {
    forall i :: 0 <= i < |s| ==> !IsSpace(s[i])
  }

  /** No string occurs twice. */
  predicate Distinct(s: seq<string>) {
    forall i, j :: 0 <= i < j < |s| ==> s[i] != s[j]
  }

  predicate HasPrefix(s: string, p: string) {
    |p| <= |s| && s[..|p|] == p
  }

  /** strings.Contains: `sub` occurs somewhere in `s` (the empty string occurs everywhere). */
  predicate Contains(s: string, sub: string)
    decreases |s|
  {
    HasPrefix(s, sub) || (|s| > 0 && Contains(s[1..], sub))
  }

  /** strings.TrimSpace */
  function TrimSpace(s: string): (r: string)
    ensures |r| <= |s|
    ensures r != "" ==> !IsSpace(r[0]) && !IsSpace(r[|r| - 1])
  {
    TrimRightSpace(TrimLeftSpace(s))
  }

  function TrimLeftSpace(s: string): (r: string)
    ensures |r| <= |s| && r == s[|s| - |r|..]
    ensures r != "" ==> !IsSpace(r[0])
    decreases |s|
  {
    if s != "" && IsSpace(s[0]) then TrimLeftSpace(s[1..]) else s
  }

  function TrimRightSpace(s: string): (r: string)
    ensures |r| <= |s| && r == s[..|r|]
    ensures r != "" ==> !IsSpace(r[|r| - 1])
    ensures s != "" && !IsSpace(s[0]) ==> r != "" && r[0] == s[0]
    decreases |s|
  {
    if s != "" && IsSpace(s[|s| - 1]) then TrimRightSpace(s[..|s| - 1]) else s
  }

  /** The number of leading characters of `s` that are not spaces. */
  function WordLen(s: string): (n: nat)
    ensures n <= |s|
    ensures forall i :: 0 <= i < n ==> !IsSpace(s[i])
    ensures n < |s| ==> IsSpace(s[n])
    decreases |s|
  {
    if s == "" || IsSpace(s[0]) then 0 else 1 + WordLen(s[1..])
  }

  /** strings.Fields: the maximal runs of non-space characters, in order. */
  function Fields(s: string): (r: seq<string>)
    ensures forall i :: 0 <= i < |r| ==> r[i] != "" && NoSpace(r[i])
    decreases |s|
  {
    if s == "" then []
    else if IsSpace(s[0]) then Fields(s[1..])
    else
      var n := WordLen(s);
      [s[..n]] + Fields(s[n..])
  }

  /** strings.Split with a one-character separator; never empty, "" gives [""]. */
  function Split(s: string, c: char): (r: seq<string>)
    ensures |r| >= 1
    ensures forall i :: 0 <= i < |r| ==> c !in r[i]
    decreases |s|
  {
    if s == "" then [""]
    else
      var rest := Split(s[1..], c);
      if s[0] == c then [""] + rest
      else [[s[0]] + rest[0]] + rest[1..]
  }

  /** strings.Join */
  function Join(parts: seq<string>, sep: string): string
    decreases |parts|
  {
    if |parts| == 0 then ""
    else if |parts| == 1 then parts[0]
    else parts[0] + sep + Join(parts[1..], sep)
  }

  lemma {:induction false} SplitNoSeparator(a: string, c: char)
    requires c !in a
    ensures Split(a, c) == [a]
    decreases |a|
  {
    if a != "" {
      SplitNoSeparator(a[1..], c);
      assert [a[0]] + a[1..] == a;
    }
  }

  /** A separator ends the first piece: what precedes it is the first element, and the rest splits on its own. */
  lemma {:induction false} SplitAtSeparator(a: string, c: char, rest: string)
    requires c !in a
    ensures Split(a + [c] + rest, c) == [a] + Split(rest, c)
    decreases |a|
  {
    var s := a + [c] + rest;
    if a == "" {
      assert s[1..] == rest;
    } else {
      assert s[1..] == a[1..] + [c] + rest;
      SplitAtSeparator(a[1..], c, rest);
      assert [a[0]] + a[1..] == a;
    }
  }

  /** Joining pieces that do not hold the separator and splitting again gives the pieces back. */
  lemma {:induction false} SplitJoin(parts: seq<string>, c: char)
    requires |parts| >= 1
    requires forall i :: 0 <= i < |parts| ==> c !in parts[i]
    ensures Split(Join(parts, [c]), c) == parts
    decreases |parts|
  {
    if |parts| == 1 {
      SplitNoSeparator(parts[0], c);
    } else {
      SplitJoin(parts[1..], c);
      SplitAtSeparator(parts[0], c, Join(parts[1..], [c]));
      assert [parts[0]] + parts[1..] == parts;
    }
  }

  /** An occurrence at a known offset is an occurrence. */
  lemma {:induction false} ContainsAt(s: string, k: nat, sub: string)
    requires k <= |s| && HasPrefix(s[k..], sub)
    ensures Contains(s, sub)
    decreases k
  {
    if k == 0 {
      assert s[0..] == s;
    } else {
      assert s[1..][k - 1..] == s[k..];
      ContainsAt(s[1..], k - 1, sub);
    }
  }

  /** Whatever contains `u + v` contains `v`. */
  lemma {:induction false} ContainsTail(s: string, u: string, v: string)
    requires Contains(s, u + v)
    ensures Contains(s, v)
    decreases |s|
  {
    if HasPrefix(s, u + v) {
      assert s[|u|..][..|v|] == (u + v)[|u|..];
      ContainsAt(s, |u|, v);
    } else {
      ContainsTail(s[1..], u, v);
      assert HasPrefix(s, v) || (|s| > 0 && Contains(s[1..], v));
    }
  }

  /** The first piece of a split is everything before the first separator. */
  lemma {:induction false} SplitFirst(s: string, c: char)
    ensures Split(s, c)[0] == s[..IndexOf(s, c)]
    decreases |s|
  {
    if s != "" && s[0] != c {
      SplitFirst(s[1..], c);
      assert [s[0]] + s[1..][..IndexOf(s[1..], c)] == s[..IndexOf(s, c)];
    }
  }

  /** A split has a second piece exactly when the separator occurs. */
  lemma {:induction false} SplitCount(s: string, c: char)
    ensures |Split(s, c)| >= 2 <==> c in s
    decreases |s|
  {
    if s != "" {
      SplitCount(s[1..], c);
      assert s == [s[0]] + s[1..];
      assert c in s <==> s[0] == c || c in s[1..];
    }
  }

  /** The second piece of a split is what lies between the first and the second separator. */
  lemma SplitSecond(s: string, c: char)
    requires c in s
    ensures var k := IndexOf(s, c);
      var rest := s[k + 1..];
      |Split(s, c)| >= 2 && Split(s, c)[1] == rest[..IndexOf(rest, c)]
  {
    var k := IndexOf(s, c);
    assert s == s[..k] + [c] + s[k + 1..];
    SplitAtSeparator(s[..k], c, s[k + 1..]);
    SplitFirst(s[k + 1..], c);
  }

  function LowerAsciiChar(c: char): char {
    if 'A' <= c <= 'Z' then (c as int + 32) as char else c
  }

  /** The first index of `c` in `s`, or |s| when there is none. */
  function IndexOf(s: string, c: char): (i: nat)
    ensures i <= |s|
    ensures c !in s[..i]
    ensures i < |s| ==> s[i] == c
    decreases |s|
  {
    if s == "" || s[0] == c then 0 else 1 + IndexOf(s[1..], c)
  }

  function DigitString(n: nat): (r: string)
    ensures r != ""
  {
    var d := ['0' + (n % 10) as char];
    if n < 10 then d else DigitString(n / 10) + d
  }

  /** fmt's %d of an integer. */
  function Decimal(n: int): (r: string)
    ensures r != ""
  {
    if n < 0 then "-" + DigitString(-n) else DigitString(n)
  }

  predicate IsDigit(c: char) {
    '0' <= c <= '9'
  }

  function DigitsValue(s: string): nat
    requires forall i :: 0 <= i < |s| ==> IsDigit(s[i])
    decreases |s|
  {
    if s == "" then 0
    else
      var d := s[|s| - 1] as int - '0' as int;
      assert IsDigit(s[|s| - 1]);
      DigitsValue(s[..|s| - 1]) * 10 + d
  }

  function DigitRunLen(s: string): (n: nat)
    ensures n <= |s| && forall i :: 0 <= i < n ==> IsDigit(s[i])
    decreases |s|
  {
    if s != "" && IsDigit(s[0]) then 1 + DigitRunLen(s[1..]) else 0
  }

  /**
   * fmt.Sscanf(s, "%d", &n) on a token without leading spaces: an optional
   * sign, then at least one decimal digit; anything after the digits is
   * ignored. A value outside Go's 64-bit int is a scan error, which leaves
   * the destination untouched.
   */
  function ScanInt(s: string): (r: Option<int>)
  {
    var neg := s != "" && s[0] == '-';
    var signLen := if s != "" && (s[0] == '-' || s[0] == '+') then 1 else 0;
    var n := DigitRunLen(s[signLen..]);
    if n == 0 then None
    else
      var v := DigitsValue(s[signLen..][..n]);
      var value: int := if neg then -(v as int) else v;
      if -0x8000_0000_0000_0000 <= value < 0x8000_0000_0000_0000 then Some(value) else None
  }

  lemma {:induction false} DigitStringDigits(n: nat)
    ensures forall i :: 0 <= i < |DigitString(n)| ==> IsDigit(DigitString(n)[i])
    decreases n
  {
    if n >= 10 {
      DigitStringDigits(n / 10);
    }
  }

  lemma {:induction false} DigitRunOfDigits(s: string)
    requires forall i :: 0 <= i < |s| ==> IsDigit(s[i])
    ensures DigitRunLen(s) == |s|
    decreases |s|
  {
    if s != "" {
      DigitRunOfDigits(s[1..]);
    }
  }

  lemma {:induction false} DigitStringValue(n: nat)
    requires forall i :: 0 <= i < |DigitString(n)| ==> IsDigit(DigitString(n)[i])
    ensures DigitsValue(DigitString(n)) == n
    decreases n
  {
    var s := DigitString(n);
    if n >= 10 {
      DigitStringDigits(n / 10);
      DigitStringValue(n / 10);
      assert s[..|s| - 1] == DigitString(n / 10);
    }
  }

  /** Scanning the decimal form of a non-negative 64-bit value gives the value back. */
  lemma ScanDecimal(n: nat)
    requires n < 0x8000_0000_0000_0000
    ensures ScanInt(DigitString(n)) == Some(n)
  {
    var s := DigitString(n);
    DigitStringDigits(n);
    DigitRunOfDigits(s);
    DigitStringValue(n);
    assert IsDigit(s[0]);
    assert s[0..] == s && s[0..][..|s|] == s;
  }

  /** Scanning fmt's %d of a 64-bit value, negative ones included, gives the value back. */
  lemma ScanDecimalInt(n: int)
    requires -0x8000_0000_0000_0000 <= n < 0x8000_0000_0000_0000
    ensures ScanInt(Decimal(n)) == Some(n)
  {
    if n >= 0 {
      ScanDecimal(n);
    } else {
      var s := DigitString(-n);
      DigitStringDigits(-n);
      DigitRunOfDigits(s);
      DigitStringValue(-n);
      assert Decimal(n)[1..] == s;
      assert IsDigit(s[0]) && s[..|s|] == s;
    }
  }

  /** A number printed in decimal has no space to trim. */
  lemma DigitStringTrimmed(n: nat)
    ensures TrimSpace(DigitString(n)) == DigitString(n)
  {
    var s := DigitString(n);
    DigitStringDigits(n);
    assert IsDigit(s[0]) && IsDigit(s[|s| - 1]);
    TrimSpaceKeeps(s);
  }

  /** One leading blank before a string that is otherwise trimmed is all TrimSpace removes. */
  lemma TrimSpaceLeadingBlank(s: string)
    requires |s| > 1 && s[0] == ' ' && !IsSpace(s[1]) && !IsSpace(s[|s| - 1])
    ensures TrimSpace(s) == s[1..]
  {
    assert TrimLeftSpace(s) == TrimLeftSpace(s[1..]);
    TrimSpaceKeeps(s[1..]);
  }

  /** TrimSpace leaves a string alone that neither starts nor ends with a space. */
  lemma TrimSpaceKeeps(s: string)
    requires s == "" || (!IsSpace(s[0]) && !IsSpace(s[|s| - 1]))
    ensures TrimSpace(s) == s
  {
  }

  lemma {:induction false} WordLenOfWord(s: string)
    requires NoSpace(s)
    ensures WordLen(s) == |s|
    decreases |s|
  {
    if s != "" {
      WordLenOfWord(s[1..]);
    }
  }

  /** A single word without spaces is its own only field. */
  lemma FieldsOfWord(s: string)
    requires s != "" && NoSpace(s)
    ensures Fields(s) == [s]
  {
    WordLenOfWord(s);
    assert s[..|s|] == s && s[|s|..] == "";
  }

  lemma {:induction false} WordLenBeforeSpace(w: string, s: string)
    requires NoSpace(w) && (s == "" || IsSpace(s[0]))
    ensures WordLen(w + s) == |w|
    decreases |w|
  {
    if w == "" {
      assert w + s == s;
    } else {
      assert (w + s)[1..] == w[1..] + s;
      WordLenBeforeSpace(w[1..], s);
    }
  }

  /** A word followed by a space, or by nothing, is the first field. */
  lemma FieldsAfterWord(w: string, s: string)
    requires w != "" && NoSpace(w) && (s == "" || IsSpace(s[0]))
    ensures Fields(w + s) == [w] + Fields(s)
  {
    WordLenBeforeSpace(w, s);
    assert (w + s)[..|w|] == w && (w + s)[|w|..] == s;
  }

  lemma FieldsLeadingSpace(s: string)
    ensures Fields(" " + s) == Fields(s)
  {
    assert (" " + s)[1..] == s;
  }

  /** strings.Fields undoes strings.Join with a space, for words that hold no space. */
  lemma {:induction false} FieldsJoin(parts: seq<string>)
    requires forall i :: 0 <= i < |parts| ==> parts[i] != "" && NoSpace(parts[i])
    ensures Fields(Join(parts, " ")) == parts
    decreases |parts|
  {
    if |parts| == 1 {
      FieldsOfWord(parts[0]);
    } else if |parts| > 1 {
      var rest := Join(parts[1..], " ");
      assert Join(parts, " ") == parts[0] + (" " + rest);
      FieldsJoin(parts[1..]);
      FieldsLeadingSpace(rest);
      FieldsAfterWord(parts[0], " " + rest);
      assert parts == [parts[0]] + parts[1..];
    }
  }
}

/**
 * Go's filepath.Join and filepath.Clean for a unix platform, which the
 * shells use to expand `~/rest` against the home directory. Clean works
 * lexically on the '/'-separated elements of a path: empty and "."
 * elements go, a ".." removes the element before it, a ".." at the root
 * of an absolute path goes, and a relative path keeps the ".."s it cannot
 * resolve at its front.
 */
module Paths {

  import opened Text

  /**
   * The elements of a cleaned path: none is empty or ".", none contains
   * '/', and ".." occurs only in a leading run, never under the root.
   */
  predicate CleanElems(elems: seq<string>, rooted: bool) {
    forall i :: 0 <= i < |elems| ==>
      && elems[i] != "" && elems[i] != "." && '/' !in elems[i]
      && (elems[i] == ".." ==> !rooted && forall j :: 0 <= j < i ==> elems[j] == "..")
  }

  /** The element-by-element pass of Clean, with `out` the elements kept so far. */
  function Reduce(elems: seq<string>, rooted: bool, out: seq<string>): (r: seq<string>)
    requires CleanElems(out, rooted)
    requires forall i :: 0 <= i < |elems| ==> '/' !in elems[i]
    ensures CleanElems(r, rooted)
    decreases |elems|
  {
    if elems == [] then out
    else
      var e := elems[0];
      if e == "" || e == "." then Reduce(elems[1..], rooted, out)
      else if e == ".." then
        if out != [] && out[|out| - 1] != ".." then Reduce(elems[1..], rooted, out[..|out| - 1])
        else if rooted then Reduce(elems[1..], rooted, out)
        else Reduce(elems[1..], rooted, out + [".."])
      else Reduce(elems[1..], rooted, out + [e])
  }

  /** filepath.Clean: the empty path is "."; a path starting with '/' stays rooted. */
  function Clean(p: string): (r: string)
    ensures r != ""
    ensures p != "" && p[0] == '/' <==> r[0] == '/'
  {
    if p == "" then "."
    else
      var rooted := p[0] == '/';
      var out := Reduce(Split(p, '/'), rooted, []);
      JoinHead(out);
      var body := Join(out, "/");
      if rooted then "/" + body
      else if body == "" then "."
      else body
  }

  /** filepath.Join of two elements: the empty ones are ignored, and the joined path is cleaned. */
  function PathJoin(a: string, b: string): (r: string)
    ensures a != "" || b != "" ==> r != ""
  {
    if a == "" && b == "" then ""
    else if a == "" then Clean(b)
    else if b == "" then Clean(a)
    else Clean(a + "/" + b)
  }

  /** Joining clean elements starts with the first element's first character, and is empty only for no elements. */
  lemma JoinHead(out: seq<string>)
    requires forall i :: 0 <= i < |out| ==> out[i] != ""
    ensures Join(out, "/") == "" <==> out == []
    ensures out != [] ==> Join(out, "/")[0] == out[0][0]
  {
  }

  /** Reduce keeps elements that are already clean: it only appends them. */
  lemma {:induction false} ReduceKeepsClean(elems: seq<string>, rooted: bool, out: seq<string>)
    requires CleanElems(out + elems, rooted)
    ensures CleanElems(out, rooted)
    ensures forall i :: 0 <= i < |elems| ==> '/' !in elems[i]
    ensures Reduce(elems, rooted, out) == out + elems
    decreases |elems|
  {
    assert forall i :: 0 <= i < |out| ==> out[i] == (out + elems)[i];
    assert forall i :: 0 <= i < |elems| ==> elems[i] == (out + elems)[|out| + i];
    if elems != [] {
      var e := elems[0];
      assert (out + [e]) + elems[1..] == out + elems;
      if e == ".." {
        assert (out + elems)[|out|] == "..";
        assert out != [] ==> out[|out| - 1] == (out + elems)[|out| - 1] == "..";
      }
      ReduceKeepsClean(elems[1..], rooted, out + [e]);
    }
  }

  lemma CleanDot()
    ensures Clean(".") == "."
  {
    SplitNoSeparator(".", '/');
    assert Reduce(["."], false, []) == [];
  }

  /** Cleaning a cleaned path changes nothing. */
  lemma CleanIdempotent(p: string)
    ensures Clean(Clean(p)) == Clean(p)
  {
    var r := Clean(p);
    if p == "" {
      CleanDot();
    } else {
      var rooted := p[0] == '/';
      var out := Reduce(Split(p, '/'), rooted, []);
      JoinHead(out);
      var body := Join(out, "/");
      ReduceKeepsClean(out, rooted, []);
      assert [] + out == out;
      if out != [] {
        SplitJoin(out, '/');
        assert Join(out, [ '/' ]) == body;
      }
      if rooted {
        assert r == "/" + body;
        assert r == [] + ['/'] + body;
        SplitAtSeparator("", '/', body);
        if out == [] {
          assert Split(body, '/') == [""];
          assert Reduce(["", ""], true, []) == [];
        } else {
          assert Split(r, '/') == [""] + out;
          assert Reduce([""] + out, true, []) == Reduce(out, true, []);
        }
      } else if body == "" {
        assert r == ".";
        CleanDot();
      } else {
        assert r == body && r[0] != '/';
      }
    }
  }
}

/**
 * iptp-go/exec.go: how the shell recognises a path-like command word, and
 * the environment it gives an external command.
 */
module Exec {

  import opened Wrappers

  /** os.PathSeparator on the given platform. */
  function PathSeparator(goos: string): char {
    if goos == "windows" then '\\' else '/'
  }

  /**
   * containsPathSep: despite its name it looks at the first character only,
   * which must be '.' or the platform's separator. The first character is
   * read unguarded, so an empty word is outside its domain.
   */
  function ContainsPathSep(goos: string, path: string): (r: bool)
    requires |path| > 0
    ensures r <==> path[0] == '.' || path[0] == PathSeparator(goos)
  {
    if goos == "windows" then PathSeparator(goos) == '\\' && (path[0] == '.' || path[0] == '\\')
    else path[0] == '.' || path[0] == '/'
  }

  /** Only the first character matters: a separator later in the word is not seen. */
  lemma OnlyFirstCharacter(goos: string, path: string, rest: string)
    requires |path| > 0
    ensures ContainsPathSep(goos, path + rest) == ContainsPathSep(goos, path[..1])
  {
  }

  lemma SeparatorInsideIgnored()
    ensures !ContainsPathSep("linux", "bin/tool")
    ensures ContainsPathSep("linux", "./script.sh") && ContainsPathSep("linux", "/usr/bin/env")
    ensures ContainsPathSep("windows", "\\tools\\a.exe") && !ContainsPathSep("windows", "/usr/bin/env")
  {
  }

  /** The program ExecuteScript starts, with its arguments and environment. */
  datatype Command = Command(program: string, args: seq<string>, env: seq<string>)

  /**
   * ExecuteScript: nothing runs for an empty command line; otherwise the
   * first word is the program and the rest its arguments, and the child
   * sees the parent environment, GOBASH_SHELL=1, and GOBASH_CWD=<cwd> only
   * when the working directory is known.
   */
  method ScriptCommand(parts: seq<string>, environ: seq<string>, cwd: Option<string>) returns (r: Option<Command>)
    ensures parts == [] <==> r.None?
    ensures r.Some? ==> [r.value.program] + r.value.args == parts
    ensures r.Some? ==>
      r.value.env == environ + ["GOBASH_SHELL=1"] + (if cwd.Some? then ["GOBASH_CWD=" + cwd.value] else [])
  {
    if |parts| == 0 {
      return None;
    }
    var env := environ;
    env := env + ["GOBASH_SHELL=1"];
    if cwd.Some? {
      env := env + ["GOBASH_CWD=" + cwd.value];
    }
    assert [parts[0]] + parts[1..] == parts;
    return Some(Command(parts[0], parts[1..], env));
  }
}

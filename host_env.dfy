/**
 * What the command-line entry points read from the operating system, passed
 * in as values: the process id, the clock, the working directory, and
 * the outcome of changing directory. os.Getpid, time.Now, os.Getwd and
 * os.Chdir are not modelled beyond these values.
 */
module HostEnv {

  import opened Wrappers
  import opened Text

  datatype Host = Host(
    /** $iptp_PROCESS; "" when unset. */
    processVar: string,
    pid: int,
    /** An RFC 3339 timestamp standing for time.Now(). */
    now: string,
    /** os.Getwd() before the command; "" when it fails (the error is ignored). */
    cwd: string,
    /** os.Chdir(path) followed by os.Getwd(): None when the change fails. */
    chdir: string -> Option<string>)

  /** The default process name, fmt.Sprintf("shell_%d", pid). */
  function ShellName(pid: int): (r: string)
    ensures HasPrefix(r, "shell_") && |r| > |"shell_"|
    ensures r[|"shell_"|..] == Decimal(pid)
  {
    "shell_" + Decimal(pid)
  }

  /** The pid can be read back from the name after "shell_" with %d. */
  lemma ShellNamePid(pid: int)
    requires -0x8000_0000_0000_0000 <= pid < 0x8000_0000_0000_0000
    ensures ScanInt(ShellName(pid)[|"shell_"|..]) == Some(pid)
  {
    ScanDecimalInt(pid);
  }

  /** Two processes with different pids get different default names. */
  lemma ShellNameInjective(a: int, b: int)
    requires -0x8000_0000_0000_0000 <= a < 0x8000_0000_0000_0000
    requires -0x8000_0000_0000_0000 <= b < 0x8000_0000_0000_0000
    requires ShellName(a) == ShellName(b)
    ensures a == b
  {
    ShellNamePid(a);
    ShellNamePid(b);
  }
}

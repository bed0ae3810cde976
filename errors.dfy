/** The exceptions of architect/core/exceptions.py, together with the Python
    exceptions that the core lets escape or catches by type, as one datatype;
    and the Option/Result wrappers used for every operation that can raise. */
module Errors {
  import opened Text

  datatype Option<+T> = None | Some(value: T)

  datatype Result<+T> = Ok(value: T) | Err(error: Error)

  datatype Error =
    // the ArchitectError hierarchy
    | DiskNotFound(msg: string)
    | NotEnoughSpace(msg: string)
    | Partitioning(msg: string)
    | Encryption(msg: string)
    | Filesystem(msg: string)
    | Mount(msg: string)
    | Crypttab(msg: string)
    // built-in exceptions
    | InvalidValue(msg: string)        // ValueError
    | Runtime(msg: string)             // RuntimeError
    | KeyMissing(key: string)          // KeyError
    | IndexOutOfRange                  // IndexError from a list subscript
    // subprocess.CalledProcessError, raised by `run` with check=True
    | CalledProcess(cmd: seq<string>, returncode: int, stdout: string, stderr: string)
    // OSError raised when the host cannot start the process at all
    | HostFailure(msg: string)
  {
    /** The five architect errors that cli.py reports and turns into exit code 1. */
    predicate IsArchitectError() {
      DiskNotFound? || NotEnoughSpace? || Partitioning? || Encryption? || Filesystem? || Mount? || Crypttab?
    }
  }

  /** `repr` of a list of strings, as it appears inside str(CalledProcessError). */
  function ListRepr(xs: seq<string>): string {
    "[" + Join(QuoteAll(xs), ", ") + "]"
  }

  function QuoteAll(xs: seq<string>): (r: seq<string>)
    ensures |r| == |xs| && forall i :: 0 <= i < |xs| ==> r[i] == Repr(xs[i])
  {
    if xs == [] then [] else [Repr(xs[0])] + QuoteAll(xs[1..])
  }

  /** `repr` of a string: single quotes, or double quotes when the text
      holds a single quote and no double quote; backslashes, the chosen
      quote and the three common control characters are escaped. */
  function Repr(s: string): (r: string)
    ensures |r| >= 2 && r[0] == r[|r| - 1] && (r[0] == '\'' || r[0] == '"')
  {
    var q := if '\'' in s && '"' !in s then '"' else '\'';
    [q] + Escaped(s, q) + [q]
  }

  function Escaped(s: string, q: char): string {
    if s == [] then [] else EscapeChar(s[0], q) + Escaped(s[1..], q)
  }

  function EscapeChar(c: char, q: char): string {
    if c == '\\' then "\\\\"
    else if c == q then ['\\', q]
    else if c == '\n' then "\\n"
    else if c == '\r' then "\\r"
    else if c == '\t' then "\\t"
    else [c]
  }

  /** Text without quotes, backslashes or those control characters is
      quoted verbatim. */
  predicate PlainText(s: string) {
    forall i :: 0 <= i < |s| ==> s[i] !in "'\"\\\n\r\t"
  }

  lemma {:induction false} PlainEscapedVerbatim(s: string, q: char)
    requires PlainText(s) && (q == '\'' || q == '"')
    ensures Escaped(s, q) == s
    decreases |s|
  {
    if s != [] {
      assert PlainText(s[1..]) by {
        forall i | 0 <= i < |s[1..]| ensures s[1..][i] !in "'\"\\\n\r\t" {
          assert s[1..][i] == s[i + 1];
        }
      }
      PlainEscapedVerbatim(s[1..], q);
      assert s[0] !in "'\"\\\n\r\t";
      assert [s[0]] + s[1..] == s;
    }
  }

  /** `repr` of plain text is the text in single quotes; one with a single
      quote and no double quote switches to double quotes. */
  lemma ReprQuoting(s: string)
    ensures PlainText(s) ==> Repr(s) == "'" + s + "'"
    ensures '\'' in s && '"' !in s ==> Repr(s)[0] == '"'
  {
    if PlainText(s) {
      forall i | 0 <= i < |s|
        ensures s[i] != '\''
      {
        assert s[i] !in "'\"\\\n\r\t";
      }
      PlainEscapedVerbatim(s, '\'');
    }
  }

  /** The names of the Linux signals 1 to 31, as `signal.Signals` lists
      them (an alias such as SIGIOT or SIGPOLL gives way to the main name). */
  const SignalNames: seq<string> := [
    "SIGHUP", "SIGINT", "SIGQUIT", "SIGILL", "SIGTRAP", "SIGABRT", "SIGBUS", "SIGFPE",
    "SIGKILL", "SIGUSR1", "SIGSEGV", "SIGUSR2", "SIGPIPE", "SIGALRM", "SIGTERM", "SIGSTKFLT",
    "SIGCHLD", "SIGCONT", "SIGSTOP", "SIGTSTP", "SIGTTIN", "SIGTTOU", "SIGURG", "SIGXCPU",
    "SIGXFSZ", "SIGVTALRM", "SIGPROF", "SIGWINCH", "SIGIO", "SIGPWR", "SIGSYS"]

  /** `signal.Signals(n)` on Linux: a named signal, or none (a ValueError). */
  function SignalName(n: nat): Option<string> {
    if 1 <= n <= |SignalNames| then Some(SignalNames[n - 1])
    else if n == 34 then Some("SIGRTMIN")
    else if n == 64 then Some("SIGRTMAX")
    else None
  }

  /** How str(CalledProcessError) names the signal that killed a process:
      the enum's repr, or "unknown signal N". */
  function SignalText(n: nat): string {
    match SignalName(n)
    case Some(name) => "<Signals." + name + ": " + NatToString(n) + ">"
    case None => "unknown signal " + NatToString(n)
  }

  /** The signal text for SIGKILL, and for a number that names no signal. */
  lemma SignalTexts()
    ensures SignalText(9) == "<Signals.SIGKILL: 9>"
    ensures SignalText(15) == "<Signals.SIGTERM: 15>"
    ensures SignalText(40) == "unknown signal 40"
  {
    assert SignalNames[8] == "SIGKILL" && SignalNames[14] == "SIGTERM";
    assert NatToString(9) == "9";
    assert NatToString(15) == NatToString(1) + "5";
    assert NatToString(40) == NatToString(4) + "0";
  }

  /** `str(e)`: the text an f-string interpolates for the exception. */
  function Describe(e: Error): string {
    match e
    case DiskNotFound(m) => m
    case NotEnoughSpace(m) => m
    case Partitioning(m) => m
    case Encryption(m) => m
    case Filesystem(m) => m
    case Mount(m) => m
    case Crypttab(m) => m
    case InvalidValue(m) => m
    case Runtime(m) => m
    case KeyMissing(k) => Repr(k)
    case IndexOutOfRange => "list index out of range"
    case CalledProcess(cmd, code, _, _) =>
      if code >= 0 then "Command '" + ListRepr(cmd) + "' returned non-zero exit status " + NatToString(code) + "."
      else "Command '" + ListRepr(cmd) + "' died with " + SignalText(-code) + "."
    case HostFailure(m) => m
  }
}

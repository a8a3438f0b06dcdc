/**
 * Vocabulary shared by the EDUGuard backend model: bytes, optional values,
 * the `(success, message)` replies of the monitoring managers, process ids
 * and the signals a manager sends to its child processes.
 */
module Common {

  /** One element of a Python `bytes` object. */
  type byte = x: int | 0 <= x < 256

  type Bytes = seq<byte>

  datatype Option<+T> = None | Some(value: T)

  /** The `(success, message)` pair every manager operation returns. */
  datatype Reply = Reply(success: bool, message: string)

  /** A child process, identified by its pid. */
  type Pid = nat

  /** What a manager did to a child process. */
  datatype Signal = Terminate(pid: Pid) | Kill(pid: Pid)

  /**
   * Outcome of `subprocess.Popen(...)` followed by a fixed sleep and one
   * `poll()`: either Popen raised, or the child started and was, or was no
   * longer, running when polled; `stderr` is what `communicate()` returned.
   */
  datatype Launch =
    | LaunchRaised(error: string)
    | Launched(pid: Pid, aliveAfterWait: bool, stderr: string)

  /**
   * Signals sent by `terminate(); wait(timeout)`, followed by `kill()` when the
   * wait times out: a process that is already gone, or that exits within the
   * grace period, is not killed.
   */
  function TerminateSignals(pid: Pid, alive: bool, exitsOnTerm: bool): (sigs: seq<Signal>)
    ensures |sigs| >= 1 && sigs[0] == Terminate(pid)
    ensures Kill(pid) in sigs <==> alive && !exitsOnTerm
    ensures forall sig :: sig in sigs ==> sig.pid == pid
  {
    [Terminate(pid)] + (if alive && !exitsOnTerm then [Kill(pid)] else [])
  }

  /** Some registered child process is still running (`poll() is None`). */
  predicate AnyAlive<K>(procs: map<K, Pid>, live: set<Pid>)
  {
    exists k :: k in procs && procs[k] in live
  }

  /**
   * The managers' scan `for p in processes.values(): if p.poll() is None: ...`,
   * which stops at the first running process.
   */
  method FindAlive<K>(procs: map<K, Pid>, live: set<Pid>) returns (found: bool)
    ensures found <==> AnyAlive(procs, live)
  {
    var pending := procs.Keys;
    found := false;
    while pending != {} && !found
      invariant pending <= procs.Keys
      invariant found ==> AnyAlive(procs, live)
      invariant !found ==> forall k :: k in procs && k !in pending ==> procs[k] !in live
      decreases |pending|
    {
      var k :| k in pending;
      if procs[k] in live {
        found := true;
      }
      pending := pending - {k};
    }
  }

  function UpperAscii(c: char): char
  {
    if 'a' <= c <= 'z' then (c as int - 32) as char else c
  }

  function LowerAscii(c: char): char
  {
    if 'A' <= c <= 'Z' then (c as int + 32) as char else c
  }

  /** `str.lower()` restricted to the ASCII letters. */
  function LowerAll(s: string): (r: string)
    ensures |r| == |s|
    ensures forall i :: 0 <= i < |s| ==> r[i] == LowerAscii(s[i])
  {
    if s == [] then [] else [LowerAscii(s[0])] + LowerAll(s[1..])
  }

  /**
   * Python's `str.capitalize()` on ASCII text: first letter upper, the rest
   * lower. Letters outside ASCII are left as they are, unlike Python's; the
   * only arguments are the script type names, which are plain ASCII.
   */
  function Capitalize(s: string): (r: string)
    ensures |r| == |s|
    ensures s != [] ==> r[0] == UpperAscii(s[0])
    ensures forall i :: 0 < i < |s| ==> r[i] == LowerAscii(s[i])
  {
    if s == [] then [] else [UpperAscii(s[0])] + LowerAll(s[1..])
  }
}

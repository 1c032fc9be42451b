/**
 * The trestle CLI wrapper: locating the `trestle` executable and turning the
 * outcome of one run of it into the uniform result record
 * `{success, stdout, stderr, returncode}` every tool consumes.
 *
 * The operating system is not modelled.  The file system is the `pathExists`
 * oracle of a `Host`; the subprocess is a function `spawn` from the exact
 * invocation (argument vector, working directory, timeout) to its outcome.
 */
module Trestle {
  import opened Argv
  import opened Text

  /** The fixed wall-clock limit, in seconds, of one run. */
  const TimeoutSeconds: nat := 60
  const TimeoutMessage: string := "Command timed out after 60 seconds"
  const ErrorPrefix: string := "Error executing trestle: "
  /** The bare program name, left for the system search path to resolve. */
  const SystemTrestle: string := "trestle"

  /** The process outcome: it ran to completion, hit the timeout, or raised. */
  datatype Outcome =
    | Completed(code: int, out: string, err: string)
    | TimedOut
    | Raised(msg: string)

  /** The result record of one run. */
  datatype CommandResult = CommandResult(success: bool, stdout: string, stderr: string, returncode: int)

  /**
   * What the wrapper consults about its surroundings: the process's current
   * directory, the directory three levels above the wrapper module (the
   * package's checkout), and which paths exist.
   */
  datatype Host = Host(cwd: string, packageRoot: string, pathExists: string -> bool)

  /** Exactly what is handed to the subprocess layer. */
  datatype Invocation = Invocation(argv: seq<string>, workdir: string, timeout: nat)

  /** `<dir>/.venv/bin/trestle`. */
  function VenvTrestle(dir: string): string {
    dir + "/.venv/bin/trestle"
  }

  /** The search list, in order: the caller's virtual environment, then the package's. */
  function Candidates(host: Host): seq<string> {
    [VenvTrestle(host.cwd), VenvTrestle(host.packageRoot)]
  }

  /** The first path of `paths` that exists, if any. */
  function FirstExisting(paths: seq<string>, pathExists: string -> bool): (r: Option<string>)
    ensures r.Some? ==>
      exists i :: 0 <= i < |paths| && paths[i] == r.value && pathExists(paths[i])
        && forall j :: 0 <= j < i ==> !pathExists(paths[j])
    ensures r.None? ==> forall j :: 0 <= j < |paths| ==> !pathExists(paths[j])
  {
    if paths == [] then None
    else if pathExists(paths[0]) then Some(paths[0])
    else
      var r := FirstExisting(paths[1..], pathExists);
      if r.Some? then
        var i :| 0 <= i < |paths[1..]| && paths[1..][i] == r.value && pathExists(paths[1..][i])
          && forall j :: 0 <= j < i ==> !pathExists(paths[1..][j]);
        assert paths[i + 1] == r.value;
        r
      else r
  }

  /** The executable the wrapper settles on. */
  function ResolvedBinary(host: Host): (bin: string)
    ensures bin == SystemTrestle || (bin in Candidates(host) && host.pathExists(bin))
  {
    match FirstExisting(Candidates(host), host.pathExists)
    case Some(p) => p
    case None => SystemTrestle
  }

  /**
   * The resolver's search order: the working directory's virtual environment
   * wins, then the package's, and otherwise the bare name (when the existence
   * checks themselves succeed, the search always yields a name).
   */
  lemma ResolvedBinaryOrder(host: Host)
    ensures host.pathExists(VenvTrestle(host.cwd)) ==> ResolvedBinary(host) == VenvTrestle(host.cwd)
    ensures !host.pathExists(VenvTrestle(host.cwd)) && host.pathExists(VenvTrestle(host.packageRoot))
      ==> ResolvedBinary(host) == VenvTrestle(host.packageRoot)
    ensures !host.pathExists(VenvTrestle(host.cwd)) && !host.pathExists(VenvTrestle(host.packageRoot))
      ==> ResolvedBinary(host) == SystemTrestle
  {
    var c := Candidates(host);
    var r := FirstExisting(c, host.pathExists);
    assert c[0] == VenvTrestle(host.cwd) && c[1] == VenvTrestle(host.packageRoot);
    if r.Some? {
      var i :| 0 <= i < |c| && c[i] == r.value && host.pathExists(c[i])
        && forall j :: 0 <= j < i ==> !host.pathExists(c[j]);
      assert i == 0 || i == 1;
    }
  }

  /** Tries each candidate in turn and returns the first that exists, else the bare name. */
  method FindTrestleBin(host: Host) returns (bin: string)
    ensures bin == ResolvedBinary(host)
    ensures bin in Candidates(host) ==> host.pathExists(bin)
    ensures bin !in Candidates(host) ==> bin == SystemTrestle
  {
    var venvPaths := Candidates(host);
    for i := 0 to |venvPaths|
      invariant forall j :: 0 <= j < i ==> !host.pathExists(venvPaths[j])
    {
      if host.pathExists(venvPaths[i]) {
        ghost var r := FirstExisting(venvPaths, host.pathExists);
        if r.Some? {
          var k :| 0 <= k < |venvPaths| && venvPaths[k] == r.value && host.pathExists(venvPaths[k])
            && forall j :: 0 <= j < k ==> !host.pathExists(venvPaths[j]);
          assert !(k > i) && !(k < i);
        }
        return venvPaths[i];
      }
    }
    return SystemTrestle;
  }

  /** `cwd or os.getcwd()`: a falsy working directory falls back to the process's. */
  function WorkingDirectory(cwd: Option<string>, host: Host): (d: string)
    ensures Truthy(cwd) ==> d == cwd.value
    ensures !Truthy(cwd) ==> d == host.cwd
  {
    if Truthy(cwd) then cwd.value else host.cwd
  }

  /** The invocation for `args`: the resolved executable followed by `args`, untouched. */
  function CommandLine(args: seq<string>, cwd: Option<string>, host: Host): (inv: Invocation)
    ensures |inv.argv| == |args| + 1 && inv.argv[0] == ResolvedBinary(host) && inv.argv[1..] == args
    ensures inv.workdir == WorkingDirectory(cwd, host) && inv.timeout == TimeoutSeconds
  {
    Invocation([ResolvedBinary(host)] + args, WorkingDirectory(cwd, host), TimeoutSeconds)
  }

  /**
   * The result record of an outcome.  A completed run reports the process's
   * own code and its raw output; a timeout or a raised error reports the
   * sentinel code -1, no output and a fixed explanation.
   */
  function Envelope(o: Outcome): (r: CommandResult)
    ensures r.success <==> r.returncode == 0
    ensures o.Completed? ==> r.returncode == o.code && r.stdout == o.out && r.stderr == o.err
    ensures o.TimedOut? ==> r == CommandResult(false, "", TimeoutMessage, -1)
    ensures o.Raised? ==> r == CommandResult(false, "", ErrorPrefix + o.msg, -1)
  {
    match o
    case Completed(code, out, err) => CommandResult(code == 0, out, err, code)
    case TimedOut => CommandResult(false, "", TimeoutMessage, -1)
    case Raised(msg) => CommandResult(false, "", ErrorPrefix + msg, -1)
  }

  /** Both failure paths carry the sentinel, no output, and an explanation naming the cause. */
  lemma SentinelOutcomes(o: Outcome)
    requires !o.Completed?
    ensures var r := Envelope(o);
      !r.success && r.returncode == -1 && r.stdout == ""
      && (o.TimedOut? ==> Contains(r.stderr, "timed out"))
      && (o.Raised? ==> Contains(r.stderr, o.msg) && StartsWith(r.stderr, ErrorPrefix))
  {
    if o.TimedOut? {
      assert TimeoutMessage == "Command " + "timed out" + " after 60 seconds";
      Pieces("Command ", "timed out", " after 60 seconds");
    } else {
      assert ErrorPrefix + o.msg == ErrorPrefix + o.msg + "";
      Pieces(ErrorPrefix, o.msg, "");
    }
  }

  /**
   * Output is only ever reported by a completed run, and success only by a
   * run that completed with code 0.
   */
  lemma EnvelopeProvenance(o: Outcome)
    ensures Envelope(o).success <==> o.Completed? && o.code == 0
    ensures Envelope(o).stdout != "" ==> o.Completed?
  {
  }

  /**
   * The sentinel is not exclusive: a run that completed with code -1 (in
   * Python, a child killed by signal 1) yields returncode -1 with output, so
   * "returncode -1 implies empty stdout" holds for the two failure paths only.
   */
  lemma SentinelCollides()
    ensures Envelope(Completed(-1, "partial", "")) == CommandResult(false, "partial", "", -1)
  {
  }

  /** The result of running `args` (the specification of `RunTrestleCommand`). */
  function RunResult(args: seq<string>, cwd: Option<string>, host: Host, spawn: Invocation -> Outcome): CommandResult {
    Envelope(spawn(CommandLine(args, cwd, host)))
  }

  /** Runs `[trestle] + args` once and maps its outcome to the result record. */
  method RunTrestleCommand(args: seq<string>, cwd: Option<string>, host: Host, spawn: Invocation -> Outcome)
    returns (r: CommandResult)
    ensures r == RunResult(args, cwd, host, spawn)
    ensures r.success <==> r.returncode == 0
  {
    var trestleBin := FindTrestleBin(host);
    var cmd := [trestleBin] + args;
    var outcome := spawn(Invocation(cmd, WorkingDirectory(cwd, host), TimeoutSeconds));
    r := Envelope(outcome);
  }
}

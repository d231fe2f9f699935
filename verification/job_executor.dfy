/**
 * The job execution engine of backend/app/job_executor.py: the fixed Docker
 * argument vector, the mapping from what the process did to a
 * SaintexpressExecutionResult, and the asynchronous pass-through.
 * The foreign `subprocess.run` call is the `docker` field of a Host.
 */
module JobExecutor {
  import opened Basics

  /** SaintexpressExecutionResult: created fresh per invocation, never mutated. */
  datatype ExecutionResult = ExecutionResult(exitCode: int, stdout: string, stderr: string)

  /** What `subprocess.run` did: it returned, it raised TimeoutExpired, or it raised anything else. */
  datatype ProcessOutcome =
    | Completed(returnCode: int, out: string, err: string)
    | TimedOut(partialOut: Option<string>, partialErr: Option<string>)
    | LaunchFailed(description: string)

  /**
   * The host process environment: its working directory (what `os.path.abspath`
   * resolves against) and the behaviour of `subprocess.run(argv, cwd=..., timeout=...)`.
   */
  datatype Host = Host(cwd: string, docker: (seq<string>, string, int) -> ProcessOutcome)

  const DefaultTimeout: int := 120
  const DockerImage: string := "eaf77086b681"
  const ContainerMountPath: string := "/work"
  const TimeoutExitCode: int := 124
  const LaunchFailureExitCode: int := 1
  const TimeoutMarker: string := "\nTimeout expired."
  const LaunchFailurePrefix: string := "Failed to execute docker run: "

  /** Number of entries of the argument vector and the position of its only variable entry. */
  const ArgvLength: nat := 15
  const MountIndex: nat := 8

  /** Python's `x or ""` for an optional captured stream. */
  function OrEmpty(s: Option<string>): string
  {
    if s.Some? then s.value else ""
  }

  predicate IsAbsolute(path: string)
  {
    |path| > 0 && path[0] == '/'
  }

  /** `os.path.abspath`, without its normalisation of `.`, `..` and repeated separators. */
  function AbsPath(cwd: string, path: string): (r: string)
    ensures IsAbsolute(path) ==> r == path
    ensures !IsAbsolute(path) ==> IsSuffix(path, r) && IsPrefix(cwd, r)
  {
    if IsAbsolute(path) then path
    else
      SuffixConcat(cwd + "/", path);
      PrefixConcat(cwd, "/" + path);
      assert cwd + "/" + path == cwd + ("/" + path);
      cwd + "/" + path
  }

  /** The volume argument binding the workspace to the container's working directory. */
  function MountArg(absDir: string): string
  {
    absDir + ":" + ContainerMountPath
  }

  /** `flag` is immediately followed by `value` somewhere in `argv`. */
  predicate HasOption(argv: seq<string>, flag: string, value: string)
  {
    exists i | 0 <= i < |argv| - 1 :: argv[i] == flag && argv[i + 1] == value
  }

  /** The argument vector `_run_job` hands to `subprocess.run` (never a shell string). */
  function DockerArgv(absDir: string): (argv: seq<string>)
    ensures |argv| == ArgvLength
    ensures argv[..2] == ["docker", "run"]
    ensures "--rm" in argv
    ensures HasOption(argv, "--cpus", "1.0")
    ensures HasOption(argv, "--memory", "2g")
    ensures HasOption(argv, "-w", ContainerMountPath)
    ensures HasOption(argv, "-v", MountArg(absDir))
    ensures argv[MountIndex] == MountArg(absDir)
    ensures argv[11] == DockerImage
    ensures argv[12..] == ["interaction.txt", "prey.txt", "bait.txt"]
  {
    var argv := ["docker", "run", "--rm",
                 "--cpus", "1.0",
                 "--memory", "2g",
                 "-v", MountArg(absDir),
                 "-w", "/work",
                 DockerImage,
                 "interaction.txt",
                 "prey.txt",
                 "bait.txt"];
    assert argv[3] == "--cpus" && argv[4] == "1.0";
    assert argv[5] == "--memory" && argv[6] == "2g";
    assert argv[7] == "-v" && argv[8] == MountArg(absDir);
    assert argv[9] == "-w" && argv[10] == ContainerMountPath;
    argv
  }

  /** Every entry but the mount is the same whatever the workspace. */
  lemma ArgvOnlyMountVaries(a: string, b: string)
    ensures forall i | 0 <= i < ArgvLength && i != MountIndex :: DockerArgv(a)[i] == DockerArgv(b)[i]
  {
  }

  /** Distinct workspaces give distinct argument vectors: the mount pins the workspace down. */
  lemma ArgvInjective(a: string, b: string)
    requires DockerArgv(a) == DockerArgv(b)
    ensures a == b
  {
    var ma, mb := MountArg(a), MountArg(b);
    assert ma == mb;
    assert |a| == |b|;
    assert ma[..|a|] == a;
    assert mb[..|b|] == b;
  }

  /** The straight-line mapping at the end of `_run_job` and in its two `except` arms. */
  function MapOutcome(o: ProcessOutcome): (r: ExecutionResult)
    ensures o.Completed? ==> r == ExecutionResult(o.returnCode, o.out, o.err)
    ensures o.TimedOut? ==>
      r.exitCode == TimeoutExitCode && r.stdout == OrEmpty(o.partialOut) &&
      r.stderr == OrEmpty(o.partialErr) + TimeoutMarker
    ensures o.LaunchFailed? ==>
      r.exitCode == LaunchFailureExitCode && r.stdout == "" &&
      r.stderr == LaunchFailurePrefix + o.description
  {
    match o
    case Completed(code, out, err) => ExecutionResult(code, out, err)
    case TimedOut(out, err) => ExecutionResult(TimeoutExitCode, OrEmpty(out), OrEmpty(err) + TimeoutMarker)
    case LaunchFailed(e) => ExecutionResult(LaunchFailureExitCode, "", LaunchFailurePrefix + e)
  }

  /** A timed-out run's stderr always ends with the marker, whatever was captured. */
  lemma TimeoutStderrEndsWithMarker(o: ProcessOutcome)
    requires o.TimedOut?
    ensures MapOutcome(o).exitCode == TimeoutExitCode
    ensures IsSuffix(TimeoutMarker, MapOutcome(o).stderr)
  {
    SuffixConcat(OrEmpty(o.partialErr), TimeoutMarker);
  }

  /** A launch failure is reported with a non-empty, recognisable stderr. */
  lemma LaunchFailureDescribed(o: ProcessOutcome)
    requires o.LaunchFailed?
    ensures MapOutcome(o).exitCode == LaunchFailureExitCode
    ensures |MapOutcome(o).stderr| > 0 && IsPrefix(LaunchFailurePrefix, MapOutcome(o).stderr)
    ensures IsSuffix(o.description, MapOutcome(o).stderr)
  {
    PrefixConcat(LaunchFailurePrefix, o.description);
    SuffixConcat(LaunchFailurePrefix, o.description);
  }

  /** Exit code 0 is reported exactly when the process itself completed with 0. */
  lemma ZeroExitOnlyFromCleanCompletion(o: ProcessOutcome)
    ensures MapOutcome(o).exitCode == 0 <==> o.Completed? && o.returnCode == 0
  {
  }

  /** The `subprocess.run` call of `_run_job`: fixed argv, cwd = the workspace, the given timeout. */
  function Invoke(host: Host, sessionDir: string, timeout: int): ProcessOutcome
  {
    host.docker(DockerArgv(AbsPath(host.cwd, sessionDir)), sessionDir, timeout)
  }

  /** `_run_job`: total; every failure of the process is data in the result. */
  function RunJob(host: Host, sessionDir: string, timeout: int := DefaultTimeout): (r: ExecutionResult)
    ensures r.exitCode == 0 <==> Invoke(host, sessionDir, timeout) == Completed(0, r.stdout, r.stderr)
  {
    MapOutcome(Invoke(host, sessionDir, timeout))
  }

  /** `run_saintexpress_job`: the worker pool only moves `_run_job` off the caller's thread. */
  function RunSaintexpressJob(host: Host, sessionDir: string, timeout: int := DefaultTimeout): (r: ExecutionResult)
    ensures r == RunJob(host, sessionDir, timeout)
  {
    RunJob(host, sessionDir, timeout)
  }

  /** Both entry points default to the same 120-second timeout. */
  lemma DefaultTimeoutsAgree(host: Host, sessionDir: string)
    ensures RunSaintexpressJob(host, sessionDir) == RunJob(host, sessionDir, 120)
    ensures RunJob(host, sessionDir) == MapOutcome(Invoke(host, sessionDir, 120))
  {
  }
}

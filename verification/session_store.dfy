/**
 * The session store and run-result classification of backend/app/main.py.
 * The disk under SESSION_BASE_DIR is an abstract map from child name to what
 * sits there; the endpoints that create, write or remove entries are methods
 * of SessionServer, the ones that only look are functions over the map.
 */
module SessionStore {
  import opened Basics
  import JobExecutor

  type Bytes = seq<byte>

  /** An entry inside a session directory. */
  datatype Entry = File(data: Bytes) | Dir

  /** What sits at SESSION_BASE_DIR/<name>: a directory, or (not made by this program) a plain file. */
  datatype Node = SessionFolder(files: map<string, Entry>) | StrayFile(data: Bytes)

  type Disk = map<string, Node>

  datatype HttpError = HttpError(status: int, detail: string)

  datatype Result<T> = Ok(value: T) | Err(error: HttpError)

  const SessionBaseDir: string := "/tmp/app-sessions"
  const InputSlots: set<string> := {"interaction", "prey", "bait"}
  const InputFilenames: map<string, string> :=
    map["interaction" := "interaction.txt", "prey" := "prey.txt", "bait" := "bait.txt"]
  /** `INPUT_FILENAMES.values()` in the dictionary's insertion order. */
  const RequiredInputs: seq<string> := ["interaction.txt", "prey.txt", "bait.txt"]
  const OutputFilename: string := "list.txt"

  const InvalidSessionId: HttpError := HttpError(404, "Invalid session_id")
  const SessionNotFound: HttpError := HttpError(404, "Session not found")
  const SessionExists: HttpError := HttpError(500, "Failed to create session directory")
  const OutputMissingMessage: string := "Output file not found (job may have failed)."
  const DownloadMissing: HttpError := HttpError(404, "Output file not found. Run must be completed before download.")

  /** A plain response: what `delete_session` sends. */
  datatype Reply = Reply(status: int, content: string)

  const Deleted: Reply := Reply(204, "Session deleted")

  // ---------- Session tokens ----------

  predicate IsLowerHex(c: char)
  {
    '0' <= c <= '9' || 'a' <= c <= 'f'
  }

  predicate IsHyphenPosition(i: int)
  {
    i == 8 || i == 13 || i == 18 || i == 23
  }

  /** The form of `str(uuid.uuid4())`: 8-4-4-4-12 lower-case hex, version 4, RFC 4122 variant. */
  predicate CanonicalUuid4(s: string)
  {
    |s| == 36 &&
    (forall i | 0 <= i < 36 :: if IsHyphenPosition(i) then s[i] == '-' else IsLowerHex(s[i])) &&
    s[14] == '4' && s[19] in "89ab"
  }

  /** A single path component: joining it to a directory names a child of that directory. */
  predicate PlainName(s: string)
  {
    s != "" && s != "." && s != ".." && '/' !in s
  }

  /**
   * What the model needs of `uuid.UUID(s)` succeeding: every generated id is
   * accepted, and nothing that could climb out of the base directory is.
   */
  ghost predicate UuidLikeParser(accepts: string -> bool)
  {
    (forall s :: CanonicalUuid4(s) ==> accepts(s)) &&
    (forall s :: accepts(s) ==> PlainName(s))
  }

  /** `uuid.UUID` acceptance, kept abstract. */
  type TokenParser = accepts: string -> bool | UuidLikeParser(accepts) witness CanonicalUuid4

  /** `_session_dir`: the token is checked before any path is formed. */
  function SessionDir(parse: TokenParser, token: string): (r: Result<string>)
    ensures r.Err? <==> !parse(token)
    ensures r.Err? ==> r.error == InvalidSessionId
    ensures r.Ok? ==> PlainName(token) && r.value == SessionBaseDir + "/" + token
  {
    if !parse(token) then Err(InvalidSessionId)
    else Ok(SessionBaseDir + "/" + token)
  }

  /** A freshly generated id always passes validation. */
  lemma GeneratedIdAccepted(parse: TokenParser, id: string)
    requires CanonicalUuid4(id)
    ensures SessionDir(parse, id) == Ok(SessionBaseDir + "/" + id)
  {
  }

  predicate IsSessionDir(disk: Disk, token: string)
  {
    token in disk && disk[token].SessionFolder?
  }

  /** `_validate_session`: 404 "Session not found" exactly for a valid token without a directory. */
  function ValidateSession(parse: TokenParser, disk: Disk, token: string): (r: Result<string>)
    ensures r.Ok? <==> parse(token) && IsSessionDir(disk, token)
    ensures r.Err? ==> r.error == (if parse(token) then SessionNotFound else InvalidSessionId)
    ensures r.Ok? ==> r == SessionDir(parse, token)
  {
    var path := SessionDir(parse, token);
    if path.Err? then path
    else if !IsSessionDir(disk, token) then Err(SessionNotFound)
    else path
  }

  function FilesOf(disk: Disk, token: string): map<string, Entry>
    requires IsSessionDir(disk, token)
  {
    disk[token].files
  }

  // ---------- Inputs ----------

  predicate IsRegularFile(files: map<string, Entry>, name: string)
  {
    name in files && files[name].File?
  }

  /** The list comprehension of `run_saintexpress`: the names in `names` that are not regular files, in order. */
  function MissingFrom(files: map<string, Entry>, names: seq<string>): (r: seq<string>)
    ensures |r| <= |names|
    ensures forall n :: n in r <==> n in names && !IsRegularFile(files, n)
  {
    if names == [] then []
    else (if IsRegularFile(files, names[0]) then [] else [names[0]]) + MissingFrom(files, names[1..])
  }

  /** The missing required inputs, listed in the order interaction, prey, bait. */
  function MissingInputs(files: map<string, Entry>): (r: seq<string>)
    ensures r == [] <==> forall n | n in RequiredInputs :: IsRegularFile(files, n)
    ensures r ==
      (if IsRegularFile(files, "interaction.txt") then [] else ["interaction.txt"]) +
      (if IsRegularFile(files, "prey.txt") then [] else ["prey.txt"]) +
      (if IsRegularFile(files, "bait.txt") then [] else ["bait.txt"])
  {
    var r := MissingFrom(files, RequiredInputs);
    var bait := MissingFrom(files, ["bait.txt"]);
    var prey := MissingFrom(files, ["prey.txt", "bait.txt"]);
    assert ["bait.txt"][1..] == [];
    assert bait == (if IsRegularFile(files, "bait.txt") then [] else ["bait.txt"]) + MissingFrom(files, []);
    assert ["prey.txt", "bait.txt"][1..] == ["bait.txt"];
    assert prey == (if IsRegularFile(files, "prey.txt") then [] else ["prey.txt"]) + bait;
    assert RequiredInputs[1..] == ["prey.txt", "bait.txt"];
    assert r == (if IsRegularFile(files, "interaction.txt") then [] else ["interaction.txt"]) + prey;
    r
  }

  function MissingDetail(missing: seq<string>): string
  {
    "Missing required input files: " + Join(missing, ", ")
  }

  // ---------- Run classification ----------

  /** The message Python puts in IsADirectoryError when `open` is given a directory. */
  function IsADirectoryReason(path: string): string
  {
    "[Errno 21] Is a directory: '" + path + "'"
  }

  /** What `open(path, "r").read()` gives for a file's bytes: the decoded text, or the error's message. */
  datatype TextRead = Decoded(text: string) | ReadFailed(reason: string)

  type TextReader = Bytes -> TextRead

  datatype RunReply =
    | Rejected(error: HttpError)
    | JobFailed(exitCode: int, stderr: string)
    | RunError(message: string)
    | JobSucceeded(outputFile: string, size: nat, exitCode: int, stdout: string, outputText: string)
  {
    /** The HTTP status the reply is sent with. */
    function Status(): int
    {
      match this
      case Rejected(e) => e.status
      case JobSucceeded(_, _, _, _, _) => 200
      case _ => 500
    }
  }

  /**
   * The branches of `run_saintexpress` after the job returned: non-zero exit,
   * missing output, unreadable output, success. `files` is the workspace as
   * the job left it.
   */
  function ClassifyRun(sessionPath: string, result: JobExecutor.ExecutionResult,
                       files: map<string, Entry>, read: TextReader): (r: RunReply)
    ensures result.exitCode != 0 ==> r == JobFailed(result.exitCode, result.stderr)
    ensures result.exitCode == 0 && OutputFilename !in files ==> r == RunError(OutputMissingMessage)
    ensures result.exitCode == 0 && OutputFilename in files && files[OutputFilename] == Dir ==>
      r == RunError("Failed to read output file: " + IsADirectoryReason(sessionPath + "/" + OutputFilename))
    ensures result.exitCode == 0 && IsRegularFile(files, OutputFilename) &&
            read(files[OutputFilename].data).ReadFailed? ==>
      r == RunError("Failed to read output file: " + read(files[OutputFilename].data).reason)
    ensures r.JobSucceeded? <==>
      result.exitCode == 0 && IsRegularFile(files, OutputFilename) && read(files[OutputFilename].data).Decoded?
    ensures r.JobSucceeded? ==>
      r == JobSucceeded(OutputFilename, |files[OutputFilename].data|, 0, result.stdout,
                        read(files[OutputFilename].data).text)
    ensures r.Status() == (if r.JobSucceeded? then 200 else 500)
  {
    if result.exitCode != 0 then JobFailed(result.exitCode, result.stderr)
    else if OutputFilename !in files then RunError(OutputMissingMessage)
    else match files[OutputFilename]
      case Dir =>
        RunError("Failed to read output file: " + IsADirectoryReason(sessionPath + "/" + OutputFilename))
      case File(data) =>
        match read(data)
        case ReadFailed(e) => RunError("Failed to read output file: " + e)
        case Decoded(text) => JobSucceeded(OutputFilename, |data|, result.exitCode, result.stdout, text)
  }

  /** A non-zero exit is reported without looking at the workspace at all. */
  lemma NonZeroExitIgnoresOutput(sessionPath: string, result: JobExecutor.ExecutionResult,
                                 f1: map<string, Entry>, f2: map<string, Entry>, read: TextReader)
    requires result.exitCode != 0
    ensures ClassifyRun(sessionPath, result, f1, read) == ClassifyRun(sessionPath, result, f2, read)
    ensures ClassifyRun(sessionPath, result, f1, read) == JobFailed(result.exitCode, result.stderr)
  {
  }

  /** Success is only ever reported for a process that completed with return code 0. */
  lemma SuccessOnlyAfterCleanExit(sessionPath: string, o: JobExecutor.ProcessOutcome,
                                  files: map<string, Entry>, read: TextReader)
    requires ClassifyRun(sessionPath, JobExecutor.MapOutcome(o), files, read).JobSucceeded?
    ensures o.Completed? && o.returnCode == 0
    ensures ClassifyRun(sessionPath, JobExecutor.MapOutcome(o), files, read).stdout == o.out
  {
  }

  /**
   * The run endpoint never removes an old output: a job that exits 0 without
   * writing anything reports the previous run's list.txt as its own result.
   */
  lemma StaleOutputReported(sessionPath: string, stdout: string, stderr: string,
                            files: map<string, Entry>, read: TextReader)
    requires IsRegularFile(files, OutputFilename)
    requires read(files[OutputFilename].data).Decoded?
    ensures var old_ := files[OutputFilename].data;
      ClassifyRun(sessionPath, JobExecutor.ExecutionResult(0, stdout, stderr), files, read) ==
      JobSucceeded(OutputFilename, |old_|, 0, stdout, read(old_).text)
  {
  }

  // ---------- Download ----------

  datatype DownloadReply =
    | DownloadRejected(error: HttpError)
    | Streamed(contentDisposition: string, mediaType: string, content: Bytes)
    | StreamAborted(reason: string)

  const OutputDisposition: string := "attachment; filename=" + OutputFilename
  const OctetStream: string := "application/octet-stream"

  /**
   * `download_output`: 404 unless list.txt exists; otherwise its bytes under
   * the fixed filename. A directory named list.txt passes `exists()` and the
   * stream then breaks on `open`.
   */
  function DownloadOutput(parse: TokenParser, disk: Disk, token: string): (r: DownloadReply)
    ensures ValidateSession(parse, disk, token).Err? ==>
      r == DownloadRejected(ValidateSession(parse, disk, token).error)
    ensures ValidateSession(parse, disk, token).Ok? ==>
      (r == DownloadRejected(DownloadMissing) <==> OutputFilename !in FilesOf(disk, token))
    ensures r.Streamed? <==>
      ValidateSession(parse, disk, token).Ok? && IsRegularFile(FilesOf(disk, token), OutputFilename)
    ensures r.Streamed? ==>
      r == Streamed(OutputDisposition, OctetStream, FilesOf(disk, token)[OutputFilename].data)
    ensures ValidateSession(parse, disk, token).Ok? && OutputFilename in FilesOf(disk, token) &&
            FilesOf(disk, token)[OutputFilename] == Dir ==>
      r == StreamAborted(IsADirectoryReason(SessionBaseDir + "/" + token + "/" + OutputFilename))
  {
    var path := ValidateSession(parse, disk, token);
    if path.Err? then DownloadRejected(path.error)
    else
      var files := FilesOf(disk, token);
      if OutputFilename !in files then DownloadRejected(DownloadMissing)
      else match files[OutputFilename]
        case File(data) => Streamed(OutputDisposition, OctetStream, data)
        case Dir => StreamAborted(IsADirectoryReason(path.value + "/" + OutputFilename))
  }

  /** A successful run's output_text and size describe exactly the bytes download then returns. */
  lemma RunAndDownloadAgree(parse: TokenParser, disk: Disk, token: string,
                            result: JobExecutor.ExecutionResult, read: TextReader)
    requires ValidateSession(parse, disk, token).Ok?
    requires ClassifyRun(SessionBaseDir + "/" + token, result, FilesOf(disk, token), read).JobSucceeded?
    ensures var reply := ClassifyRun(SessionBaseDir + "/" + token, result, FilesOf(disk, token), read);
      var dl := DownloadOutput(parse, disk, token);
      dl.Streamed? && reply.size == |dl.content| && read(dl.content) == Decoded(reply.outputText)
  {
  }

  /** After a failed run that wrote nothing, download still hands out the older list.txt. */
  lemma StaleDownloadAfterFailedRun(parse: TokenParser, disk: Disk, token: string,
                                    result: JobExecutor.ExecutionResult, read: TextReader)
    requires ValidateSession(parse, disk, token).Ok?
    requires IsRegularFile(FilesOf(disk, token), OutputFilename)
    requires result.exitCode != 0
    ensures ClassifyRun(SessionBaseDir + "/" + token, result, FilesOf(disk, token), read).JobFailed?
    ensures DownloadOutput(parse, disk, token).Streamed?
    ensures DownloadOutput(parse, disk, token).content == FilesOf(disk, token)[OutputFilename].data
  {
  }

  // ---------- The executor sees the same workspace and the same files ----------

  /**
   * For an accepted token the executor mounts exactly that session's directory,
   * and names, in order, the three files the store requires.
   */
  lemma ExecutorMatchesStore(parse: TokenParser, host: JobExecutor.Host, token: string)
    requires parse(token)
    ensures var argv := JobExecutor.DockerArgv(JobExecutor.AbsPath(host.cwd, SessionDir(parse, token).value));
      argv[JobExecutor.MountIndex] == SessionBaseDir + "/" + token + ":/work" &&
      argv[12..] == RequiredInputs
  {
  }

  /** How `open(dest, "wb")` followed by `copyfileobj` ended. */
  datatype WriteFault = NoFault | OpenFailed(reason: string) | CopyFailed(written: nat, reason: string)

  function Min(a: int, b: int): int { if a <= b then a else b }

  function UploadFailed(reason: string): HttpError
  {
    HttpError(500, "File upload failed: " + reason)
  }

  /** The on-disk side of the endpoints. */
  class SessionServer {
    const parse: TokenParser
    var disk: Disk
    /** The session directories handed to the job executor, oldest first. */
    ghost var executions: seq<string>

    constructor (parse: TokenParser, disk: Disk)
      ensures this.parse == parse && this.disk == disk && executions == []
    {
      this.parse := parse;
      this.disk := disk;
      executions := [];
    }

    /** `start_session`, with `generated` standing for `str(uuid.uuid4())`. */
    method StartSession(generated: string) returns (r: Result<string>)
      requires CanonicalUuid4(generated)
      modifies this
      ensures executions == old(executions)
      ensures generated !in old(disk) ==>
        r == Ok(generated) && disk == old(disk)[generated := SessionFolder(map[])]
      ensures generated in old(disk) ==> r == Err(SessionExists) && disk == old(disk)
      ensures r.Ok? ==> ValidateSession(parse, disk, r.value).Ok? && FilesOf(disk, r.value) == map[]
    {
      var path := SessionDir(parse, generated);
      assert path.Ok?;
      if generated in disk {
        return Err(SessionExists);
      }
      disk := disk[generated := SessionFolder(map[])];
      r := Ok(generated);
    }

    /** `upload_input_file`: the slot is checked before the session, and only its file is written. */
    method UploadInputFile(token: string, slot: string, content: Bytes, fault: WriteFault)
      returns (r: Result<string>)
      modifies this
      ensures executions == old(executions)
      ensures slot !in InputSlots ==> r == Err(HttpError(400, "Invalid slot: " + slot)) && disk == old(disk)
      ensures slot in InputSlots && ValidateSession(parse, old(disk), token).Err? ==>
        r == Err(ValidateSession(parse, old(disk), token).error) && disk == old(disk)
      ensures slot in InputSlots && ValidateSession(parse, old(disk), token).Ok? ==>
        var files := FilesOf(old(disk), token);
        var name := InputFilenames[slot];
        var dest := ValidateSession(parse, old(disk), token).value + "/" + name;
        if name in files && files[name] == Dir then
          r == Err(UploadFailed(IsADirectoryReason(dest))) && disk == old(disk)
        else match fault
          case NoFault =>
            r == Ok(slot) && disk == old(disk)[token := SessionFolder(files[name := File(content)])]
          case OpenFailed(e) =>
            r == Err(UploadFailed(e)) && disk == old(disk)
          case CopyFailed(k, e) =>
            r == Err(UploadFailed(e)) &&
            disk == old(disk)[token := SessionFolder(files[name := File(content[..Min(k, |content|)])])]
      ensures r.Ok? ==>
        IsRegularFile(FilesOf(disk, token), InputFilenames[slot]) &&
        FilesOf(disk, token)[InputFilenames[slot]].data == content
    {
      if slot !in InputSlots {
        return Err(HttpError(400, "Invalid slot: " + slot));
      }
      var path := ValidateSession(parse, disk, token);
      if path.Err? {
        return Err(path.error);
      }
      var files := FilesOf(disk, token);
      var name := InputFilenames[slot];
      var dest := path.value + "/" + name;
      if name in files && files[name] == Dir {
        return Err(UploadFailed(IsADirectoryReason(dest)));
      }
      match fault {
        case NoFault =>
          disk := disk[token := SessionFolder(files[name := File(content)])];
          r := Ok(slot);
        case OpenFailed(e) =>
          r := Err(UploadFailed(e));
        case CopyFailed(k, e) =>
          disk := disk[token := SessionFolder(files[name := File(content[..Min(k, |content|)])])];
          r := Err(UploadFailed(e));
      }
    }

    /**
     * `run_saintexpress`: session check, input check, one job, then the
     * classification. `after` is the workspace as it stands when the job
     * returns, whatever the container wrote before that (for a launch that
     * never started a container, `after` is the workspace as it was).
     */
    method RunSaintexpress(token: string, host: JobExecutor.Host, after: map<string, Entry>, read: TextReader)
      returns (r: RunReply)
      modifies this
      ensures ValidateSession(parse, old(disk), token).Err? ==>
        r == Rejected(ValidateSession(parse, old(disk), token).error) &&
        disk == old(disk) && executions == old(executions)
      ensures ValidateSession(parse, old(disk), token).Ok? && MissingInputs(FilesOf(old(disk), token)) != [] ==>
        r == Rejected(HttpError(400, MissingDetail(MissingInputs(FilesOf(old(disk), token))))) &&
        disk == old(disk) && executions == old(executions)
      ensures ValidateSession(parse, old(disk), token).Ok? && MissingInputs(FilesOf(old(disk), token)) == [] ==>
        var path := ValidateSession(parse, old(disk), token).value;
        executions == old(executions) + [path] &&
        disk == old(disk)[token := SessionFolder(after)] &&
        r == ClassifyRun(path, JobExecutor.RunSaintexpressJob(host, path), after, read)
      ensures r.Rejected? <==> executions == old(executions)
    {
      var path := ValidateSession(parse, disk, token);
      if path.Err? {
        return Rejected(path.error);
      }
      var missing := MissingInputs(FilesOf(disk, token));
      if missing != [] {
        return Rejected(HttpError(400, MissingDetail(missing)));
      }
      var result := JobExecutor.RunSaintexpressJob(host, path.value);
      executions := executions + [path.value];
      disk := disk[token := SessionFolder(after)];
      r := ClassifyRun(path.value, result, after, read);
    }

    /** `delete_session`: only an existing session, and only its entry, is removed. */
    method DeleteSession(token: string) returns (r: Result<Reply>)
      modifies this
      ensures executions == old(executions)
      ensures ValidateSession(parse, old(disk), token).Err? ==>
        r == Err(ValidateSession(parse, old(disk), token).error) && disk == old(disk)
      ensures ValidateSession(parse, old(disk), token).Ok? ==>
        r == Ok(Deleted) && disk == old(disk) - {token}
      ensures r.Ok? ==> ValidateSession(parse, disk, token) == Err(SessionNotFound)
      ensures forall t | t in old(disk) && t != token :: t in disk && disk[t] == old(disk)[t]
    {
      var path := ValidateSession(parse, disk, token);
      if path.Err? {
        return Err(path.error);
      }
      disk := disk - {token};
      r := Ok(Deleted);
    }
  }

  /**
   * The run endpoint never clears list.txt: a run whose job fails and writes
   * nothing leaves the previous output for download to hand out.
   */
  method FailedRunKeepsOldDownload(server: SessionServer, token: string, host: JobExecutor.Host,
                                   read: TextReader)
    returns (reply: RunReply, download: DownloadReply)
    requires ValidateSession(server.parse, server.disk, token).Ok?
    requires MissingInputs(FilesOf(server.disk, token)) == []
    requires IsRegularFile(FilesOf(server.disk, token), OutputFilename)
    requires JobExecutor.RunSaintexpressJob(host, SessionBaseDir + "/" + token).exitCode != 0
    modifies server
    ensures reply == JobFailed(JobExecutor.RunSaintexpressJob(host, SessionBaseDir + "/" + token).exitCode,
                               JobExecutor.RunSaintexpressJob(host, SessionBaseDir + "/" + token).stderr)
    ensures download == Streamed(OutputDisposition, OctetStream,
                                 FilesOf(old(server.disk), token)[OutputFilename].data)
  {
    reply := server.RunSaintexpress(token, host, FilesOf(server.disk, token), read);
    download := DownloadOutput(server.parse, server.disk, token);
  }

  /**
   * A client of the endpoints: a fresh session with its three inputs uploaded
   * gets as far as the executor.
   */
  method UploadAllThenRun(server: SessionServer, id: string, a: Bytes, b: Bytes, c: Bytes,
                          host: JobExecutor.Host, after: map<string, Entry>, read: TextReader)
    returns (reply: RunReply)
    requires CanonicalUuid4(id) && id !in server.disk
    modifies server
    ensures |server.executions| == |old(server.executions)| + 1
    ensures !reply.Rejected?
  {
    var s := server.StartSession(id);
    var u1 := server.UploadInputFile(id, "interaction", a, NoFault);
    var u2 := server.UploadInputFile(id, "prey", b, NoFault);
    var u3 := server.UploadInputFile(id, "bait", c, NoFault);
    assert forall n | n in RequiredInputs :: IsRegularFile(FilesOf(server.disk, id), n);
    reply := server.RunSaintexpress(id, host, after, read);
  }
}

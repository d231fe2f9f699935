/**
 * The session state machine of SaintSessionComponent
 * (frontend/src/app/components/saint-session/saint-session.component.ts).
 * Each `subscribe` is split into the synchronous request part, which returns
 * the request it issues, and one method per `next` / `error` callback.
 */
module SaintSessionUi {
  import opened Basics

  /** A browser File, as far as the component looks at it. */
  datatype LocalFile = LocalFile(name: string, content: seq<byte>)

  /** The run endpoint's JSON body as the component reads it: `res.success` and `res.stderr`. */
  datatype RunResponse = RunResponse(success: bool, stderr: Option<string>)

  /** The upload call `onFileSelected` issues. */
  datatype UploadRequest = UploadRequest(sessionId: string, slot: string, file: LocalFile)

  const ErrorPrefix: string := "ATTENTION! Error: "
  const CrashMarker: string := "terminate called after"
  const ProcessFailed: string := "Process failed"

  /** The `{ interaction: null, prey: null, bait: null }` literal. */
  function EmptySlots<T>(): map<string, Option<T>>
  {
    map["interaction" := None, "prey" := None, "bait" := None]
  }

  /** JavaScript truthiness of `string | null`: the empty string counts as absent. */
  predicate Truthy(s: Option<string>)
  {
    s.Some? && s.value != ""
  }

  /** `res.stderr || 'Process failed'`. */
  function StderrOrDefault(stderr: Option<string>): (r: string)
    ensures r != ""
    ensures Truthy(stderr) ==> r == stderr.value
    ensures !Truthy(stderr) ==> r == ProcessFailed
  {
    if Truthy(stderr) then stderr.value else ProcessFailed
  }

  /** The first index at or after `from` where `needle` occurs in `s`, or -1. */
  function IndexFrom(s: string, needle: string, from: nat): (r: int)
    requires from <= |s|
    ensures -1 <= r <= |s|
    ensures r >= 0 ==> from <= r && OccursAt(needle, s, r)
    ensures r >= 0 ==> forall j | from <= j < r :: !OccursAt(needle, s, j)
    ensures r == -1 ==> forall j | from <= j <= |s| :: !OccursAt(needle, s, j)
    decreases |s| - from
  {
    if OccursAt(needle, s, from) then from
    else if from == |s| then -1
    else IndexFrom(s, needle, from + 1)
  }

  /** `String.prototype.indexOf`: the first occurrence of `needle`, or -1 when there is none. */
  function IndexOf(s: string, needle: string): (r: int)
    ensures -1 <= r <= |s|
    ensures r >= 0 ==> OccursAt(needle, s, r) && forall j | 0 <= j < r :: !OccursAt(needle, s, j)
    ensures r == -1 <==> forall j | 0 <= j <= |s| :: !OccursAt(needle, s, j)
  {
    IndexFrom(s, needle, 0)
  }

  /**
   * The run error callback's message: the prefix, then the message from the
   * first "terminate called after" on, or the whole message when it has none.
   */
  function RunErrorMessage(message: string): (r: string)
    ensures IsPrefix(ErrorPrefix, r)
    ensures var tail := r[|ErrorPrefix|..];
      IsSuffix(tail, message) &&
      ((exists j | 0 <= j <= |message| :: OccursAt(CrashMarker, message, j)) ==>
         IsPrefix(CrashMarker, tail) &&
         forall j | 0 <= j < |message| - |tail| :: !OccursAt(CrashMarker, message, j)) &&
      ((forall j | 0 <= j <= |message| :: !OccursAt(CrashMarker, message, j)) ==> tail == message)
  {
    var start := IndexOf(message, CrashMarker);
    var tail := if start >= 0 then message[start..] else message;
    PrefixConcat(ErrorPrefix, tail);
    assert start >= 0 ==> message[start..][..|CrashMarker|] == message[start..start + |CrashMarker|];
    ErrorPrefix + tail
  }

  class SaintSessionComponent {
    var sessionId: Option<string>
    var fileNames: map<string, Option<string>>
    var files: map<string, Option<LocalFile>>
    var uploadedSlots: set<string>
    var running: bool
    var runSuccess: bool
    var errorMsg: Option<string>
    var canDownload: bool

    /**
     * Kept by every transition: the download button is offered exactly after
     * a successful run, and a run in flight is never already successful.
     */
    ghost predicate Valid()
      reads this
    {
      canDownload == runSuccess && (running ==> !runSuccess)
    }

    /** Every field at its declared initial value. */
    predicate IsInitial()
      reads this
    {
      sessionId == None && fileNames == EmptySlots() && files == EmptySlots() &&
      uploadedSlots == {} && !running && !runSuccess && errorMsg == None && !canDownload
    }

    constructor ()
      ensures IsInitial() && Valid()
    {
      sessionId := None;
      fileNames := EmptySlots();
      files := EmptySlots();
      uploadedSlots := {};
      running := false;
      runSuccess := false;
      errorMsg := None;
      canDownload := false;
    }

    /** `canRun`: a session (even an empty id), three uploaded slots, and no run in flight. */
    predicate CanRun()
      reads this
      ensures CanRun() <==> sessionId.Some? && |uploadedSlots| == 3 && !running
    {
      sessionId != None && |uploadedSlots| == 3 && !running
    }

    /** `if (!this.sessionId) return;` */
    predicate HasSession()
      reads this
    {
      Truthy(sessionId)
    }

    method ResetUI()
      modifies this
      ensures IsInitial() && Valid() && !CanRun()
    {
      sessionId := None;
      fileNames := EmptySlots();
      files := EmptySlots();
      uploadedSlots := {};
      running := false;
      runSuccess := false;
      errorMsg := None;
      canDownload := false;
    }

    /** `startSession`: everything is reset before the request; the id arrives only in `next`. */
    method StartSession()
      modifies this
      ensures IsInitial() && Valid()
    {
      ResetUI();
    }

    method StartSessionNext(id: string)
      requires Valid()
      modifies this`sessionId
      ensures Valid() && sessionId == Some(id)
    {
      sessionId := Some(id);
    }

    method StartSessionError(message: string)
      requires Valid()
      modifies this`errorMsg
      ensures Valid() && errorMsg == Some(message)
    {
      errorMsg := Some(message);
    }

    /** `onFileSelected`: record the file for the slot; upload only when a session exists. */
    method OnFileSelected(file: Option<LocalFile>, slot: string) returns (upload: Option<UploadRequest>)
      requires Valid()
      modifies this`fileNames, this`files
      ensures Valid()
      ensures file.None? ==> upload.None? && fileNames == old(fileNames) && files == old(files)
      ensures file.Some? ==>
        fileNames == old(fileNames)[slot := Some(file.value.name)] &&
        files == old(files)[slot := file]
      ensures upload.Some? <==> file.Some? && HasSession()
      ensures upload.Some? ==> upload.value == UploadRequest(sessionId.value, slot, file.value)
    {
      if file.None? {
        return None;
      }
      fileNames := fileNames[slot := Some(file.value.name)];
      files := files[slot := file];
      if HasSession() {
        upload := Some(UploadRequest(sessionId.value, slot, file.value));
      } else {
        upload := None;
      }
    }

    /** A successful upload adds its slot; re-uploading a slot leaves the count as it was. */
    method UploadNext(slot: string)
      requires Valid()
      modifies this`uploadedSlots
      ensures Valid() && uploadedSlots == old(uploadedSlots) + {slot}
      ensures slot in old(uploadedSlots) ==> |uploadedSlots| == |old(uploadedSlots)|
      ensures slot !in old(uploadedSlots) ==> |uploadedSlots| == |old(uploadedSlots)| + 1
    {
      if slot in uploadedSlots {
        assert uploadedSlots + {slot} == uploadedSlots;
      }
      uploadedSlots := uploadedSlots + {slot};
    }

    method UploadError(message: string)
      requires Valid()
      modifies this`errorMsg
      ensures Valid() && errorMsg == Some(message)
    {
      errorMsg := Some(message);
    }

    /** `runProcess`: without a session nothing happens; otherwise a run is marked in flight. */
    method RunProcess() returns (request: Option<string>)
      requires Valid()
      modifies this`running, this`runSuccess, this`errorMsg, this`canDownload
      ensures Valid()
      ensures !old(HasSession()) ==> request.None? && unchanged(this)
      ensures old(HasSession()) ==>
        request == sessionId && running && !runSuccess && errorMsg.None? && !canDownload && !CanRun()
    {
      if !HasSession() {
        return None;
      }
      running := true;
      runSuccess := false;
      errorMsg := None;
      canDownload := false;
      request := sessionId;
    }

    method RunNext(res: RunResponse)
      requires Valid()
      modifies this`running, this`runSuccess, this`errorMsg, this`canDownload
      ensures Valid() && !running
      ensures res.success ==> runSuccess && canDownload && errorMsg == old(errorMsg)
      ensures !res.success ==>
        errorMsg == Some(StderrOrDefault(res.stderr)) &&
        runSuccess == old(runSuccess) && canDownload == old(canDownload)
    {
      if res.success {
        runSuccess := true;
        canDownload := true;
      } else {
        errorMsg := Some(StderrOrDefault(res.stderr));
      }
      running := false;
    }

    method RunError(message: string)
      requires Valid()
      modifies this`running, this`errorMsg
      ensures Valid() && !running && errorMsg == Some(RunErrorMessage(message))
    {
      errorMsg := Some(RunErrorMessage(message));
      running := false;
    }

    /** The request part of `downloadResult`; saving the blob is browser work. */
    method DownloadResult() returns (request: Option<string>)
      requires Valid()
      ensures request.Some? <==> HasSession()
      ensures request.Some? ==> request == sessionId
    {
      request := if HasSession() then sessionId else None;
    }

    method DownloadError(message: string)
      requires Valid()
      modifies this`errorMsg
      ensures Valid() && errorMsg == Some(message)
    {
      errorMsg := Some(message);
    }

    /** `deleteSession`: issues the request only when a session exists; changes nothing itself. */
    method DeleteSession() returns (request: Option<string>)
      requires Valid()
      ensures request.Some? <==> HasSession()
      ensures request.Some? ==> request == sessionId
    {
      request := if HasSession() then sessionId else None;
    }

    /** A confirmed deletion is exactly `resetUI`. */
    method DeleteSessionNext()
      modifies this
      ensures IsInitial() && Valid()
    {
      ResetUI();
    }

    method DeleteSessionError(message: string)
      requires Valid()
      modifies this`errorMsg
      ensures Valid() && errorMsg == Some(message)
    {
      errorMsg := Some(message);
    }
  }

  /**
   * A user's happy path: start, three uploads, run, success. The run button
   * is enabled exactly between the third upload and the run request.
   */
  method OneSuccessfulRun(id: string, a: LocalFile, b: LocalFile, c: LocalFile)
    returns (ui: SaintSessionComponent)
    requires id != ""
    ensures ui.canDownload && ui.runSuccess && !ui.running && ui.sessionId == Some(id)
  {
    ui := new SaintSessionComponent();
    ui.StartSession();
    ui.StartSessionNext(id);
    var r1 := ui.OnFileSelected(Some(a), "interaction");
    ui.UploadNext("interaction");
    var r2 := ui.OnFileSelected(Some(b), "prey");
    ui.UploadNext("prey");
    assert !ui.CanRun();
    var r3 := ui.OnFileSelected(Some(c), "bait");
    ui.UploadNext("bait");
    assert ui.uploadedSlots == {"interaction", "prey", "bait"};
    assert ui.CanRun();
    var run := ui.RunProcess();
    assert run == Some(id) && !ui.CanRun();
    ui.RunNext(RunResponse(true, None));
  }
}

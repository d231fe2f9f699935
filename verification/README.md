# SAINTexpress session service — a Dafny model

This project models the decision logic of a small web service that runs the
SAINTexpress analysis binary in a Docker sandbox. A user opens a session (a
workspace directory named by a UUID), uploads three fixed input files
(`interaction.txt`, `prey.txt`, `bait.txt`), runs the job, and downloads
`list.txt`. Three parts are modelled:

- `SessionStore` (`session_store.dfy`), for `backend/app/main.py`. The disk
  under `/tmp/app-sessions` is a map from child name to either a session folder
  (file name → `File(bytes)` or `Dir`) or a stray plain file. The endpoints that
  create, write or remove something are methods of the class `SessionServer`,
  which holds that map. The lookups (`_session_dir`, `_validate_session`, the
  missing-input list comprehension, the classification of a finished run, and
  download) are functions over the map. `uuid.UUID` acceptance is kept
  abstract as the subset type `TokenParser`. It must accept every canonical
  lower-case uuid4 string. It must also accept only plain path components (no
  `/`, not empty, `.` or `..`), and Python's parser has both properties.
- `JobExecutor` (`job_executor.dfy`), for `backend/app/job_executor.py`. It has
  the fixed Docker argument vector, the mapping from what `subprocess.run` did
  (`Completed`, `TimedOut`, `LaunchFailed`) to a `SaintexpressExecutionResult`,
  and the pass-through of `run_saintexpress_job`. The process call itself is a
  function carried by `Host`, and so is the working directory that `abspath`
  resolves against.
- `SaintSessionUi` (`saint_session.dfy`), for
  `frontend/src/app/components/saint-session/saint-session.component.ts`. It is
  a class with the component's eight fields. Each `subscribe` is split into the
  synchronous request part, which returns the request it would issue, and one
  method per `next`/`error` callback. The object invariant `Valid()` says that
  `canDownload == runSuccess` and that a run in flight is never already
  successful. Every transition keeps it.
- `Basics` (`basics.dfy`) holds `Option`, a `byte` type, prefix and suffix
  predicates and Python's `str.join`.

The executor and the store fit together. `ExecutorMatchesStore` proves that,
for an accepted token, the vector mounts exactly that session's directory and
names, in order, the three files that the run endpoint requires.
`UploadAllThenRun` shows a fresh session with three uploads reaching the
executor. `OneSuccessfulRun` shows the front-end's happy path.

The Docker argument vector written at `backend/app/job_executor.py:34-47` has
15 entries. The mount is at index 8, the image at index 11 and the three input
names at indices 12 to 14.

## Model

| member | source | states |
|---|---|---|
| `SessionStore.SessionDir` | backend/app/main.py:43-50 | the token is rejected with 404 "Invalid session_id" exactly when the parser refuses it; otherwise the path is base + "/" + token and the token is a single path component |
| `SessionStore.GeneratedIdAccepted` | backend/app/main.py:65-66 | a generated canonical uuid4 id always passes `_session_dir` |
| `SessionStore.ValidateSession` | backend/app/main.py:53-58 | success exactly when the token parses and its entry is a directory; otherwise 404 "Session not found" for a parsed token and "Invalid session_id" for the rest |
| `SessionStore.SessionServer.StartSession` | backend/app/main.py:62-72 | a new id gets a new empty directory and nothing else changes; an id whose path exists gives 500 and leaves the disk as it was; a created session then validates |
| `SessionStore.SessionServer.UploadInputFile` | backend/app/main.py:75-86 | an unknown slot gives 400 before the session is checked and writes nothing; a valid upload writes or overwrites only `INPUT_FILENAMES[slot]` of that session; open and copy failures give 500 "File upload failed: …" with the partial write a failed copy leaves |
| `SessionStore.MissingFrom` | backend/app/main.py:93 | a name is in the result exactly when it is in the list and is not a regular file |
| `SessionStore.MissingInputs` | backend/app/main.py:93-98 | the missing inputs are listed in the order interaction, prey, bait, and the list is empty exactly when all three are regular files |
| `SessionStore.SessionServer.RunSaintexpress` | backend/app/main.py:89-140 | session errors and missing inputs are rejected without invoking the executor or touching the disk; otherwise the executor runs once on the session path with the default timeout, the session's files become the workspace as the job left it (for every outcome), and the reply is the classification of the result over that workspace |
| `SessionStore.ClassifyRun` | backend/app/main.py:104-140 | a non-zero exit gives failure with exit_code and stderr verbatim; exit 0 without list.txt gives "Output file not found"; an unreadable list.txt gives "Failed to read output file"; success exactly for exit 0 with a readable regular list.txt, carrying list.txt, its size, exit code 0, stdout and the decoded text |
| `SessionStore.NonZeroExitIgnoresOutput` | backend/app/main.py:104-112 | with a non-zero exit the reply does not depend on the workspace at all |
| `SessionStore.SuccessOnlyAfterCleanExit` | backend/app/main.py:104-140 | a success reply means the process completed with return code 0, and its stdout is the process's stdout |
| `SessionStore.StaleOutputReported` | backend/app/main.py:114-140 | a job that exits 0 over a workspace still holding an older list.txt reports that file as its result |
| `SessionStore.DownloadOutput` | backend/app/main.py:143-162 | session errors pass through; 404 exactly when list.txt is absent; otherwise a stream of exactly list.txt's bytes as an octet stream with filename list.txt; a directory named list.txt gives an aborted stream with Python's "Is a directory" message |
| `SessionStore.RunAndDownloadAgree` | backend/app/main.py:132-162 | after a success reply, download streams bytes whose decoding is output_text and whose length is size |
| `SessionStore.StaleDownloadAfterFailedRun` | backend/app/main.py:104-162 | after a failed run that wrote nothing, download still returns the older list.txt |
| `SessionStore.FailedRunKeepsOldDownload` | backend/app/main.py:89-162 | calling the run endpoint with a job that fails and leaves the workspace as it was, then download, gives the job's exit code and stderr and then the previous list.txt bytes |
| `SessionStore.SessionServer.DeleteSession` | backend/app/main.py:165-177 | a missing or invalid session is refused and nothing changes; otherwise only that session's entry is removed, the reply is 204 "Session deleted", and the session then no longer validates |
| `SessionStore.ExecutorMatchesStore` | backend/app/job_executor.py:34-44 | for an accepted token the mount is the session directory + ":/work" and the last three arguments are the store's required inputs, in order |
| `SessionStore.UploadAllThenRun` | backend/app/main.py:62-101 | a fresh session with all three slots uploaded reaches the executor exactly once |
| `JobExecutor.DockerArgv` | backend/app/job_executor.py:31-47 | 15 entries starting `docker run`, with `--rm`, `--cpus 1.0`, `--memory 2g`, `-w /work`, `-v <dir>:/work` at index 8, the image, then interaction.txt, prey.txt and bait.txt |
| `JobExecutor.ArgvOnlyMountVaries` | backend/app/job_executor.py:34-47 | every entry other than the mount is the same for all workspaces |
| `JobExecutor.ArgvInjective` | backend/app/job_executor.py:38 | equal vectors mean equal workspace paths |
| `JobExecutor.AbsPath` | backend/app/job_executor.py:38 | an absolute path is unchanged; a relative one ends with itself and starts with the working directory |
| `JobExecutor.MapOutcome` | backend/app/job_executor.py:54-80 | completion copies the return code, stdout and stderr; a timeout gives 124, the captured stdout or "", and the captured stderr or "" followed by "\nTimeout expired."; a launch failure gives 1, "", and "Failed to execute docker run: " + description |
| `JobExecutor.TimeoutStderrEndsWithMarker` | backend/app/job_executor.py:63-68 | a timed-out result has exit code 124 and its stderr always ends with the marker |
| `JobExecutor.LaunchFailureDescribed` | backend/app/job_executor.py:69-74 | a launch failure has exit code 1 and a non-empty stderr that starts with the fixed prefix and ends with the description |
| `JobExecutor.ZeroExitOnlyFromCleanCompletion` | backend/app/job_executor.py:63-80 | exit code 0 is reported exactly when the process completed with return code 0 |
| `JobExecutor.RunJob` | backend/app/job_executor.py:22-80 | the reported exit code is 0 exactly when the Docker call, made with the fixed vector, the workspace as cwd and the given timeout, completed with 0 and those streams |
| `JobExecutor.RunSaintexpressJob` | backend/app/job_executor.py:82-89 | the asynchronous entry point returns exactly `_run_job`'s result for the same directory and timeout |
| `JobExecutor.DefaultTimeoutsAgree` | backend/app/job_executor.py:22 | both entry points default to a 120-second timeout |
| `SaintSessionUi.StderrOrDefault` | frontend/src/app/components/saint-session/saint-session.component.ts:72 | the failure text is stderr when stderr is a non-empty string, and 'Process failed' otherwise |
| `SaintSessionUi.IndexFrom` | frontend/src/app/components/saint-session/saint-session.component.ts:77 | the first occurrence at or after the start index, or -1 exactly when there is none |
| `SaintSessionUi.IndexOf` | frontend/src/app/components/saint-session/saint-session.component.ts:77 | `indexOf`: the first occurrence of the needle, or -1 exactly when it does not occur |
| `SaintSessionUi.RunErrorMessage` | frontend/src/app/components/saint-session/saint-session.component.ts:77-79 | the message is "ATTENTION! Error: " followed by a suffix of the error text; when "terminate called after" occurs that suffix starts at its first occurrence, otherwise it is the whole text |
| `SaintSessionUi.SaintSessionComponent.constructor` | frontend/src/app/components/saint-session/saint-session.component.ts:10-18 | every field starts at its declared initial value |
| `SaintSessionUi.SaintSessionComponent.CanRun` | frontend/src/app/components/saint-session/saint-session.component.ts:55-57 | true exactly when `sessionId` is not null, `uploadedSlots` has three elements and no run is in flight; `ResetUI` and `RunProcess` both end with it false |
| `SaintSessionUi.SaintSessionComponent.ResetUI` | frontend/src/app/components/saint-session/saint-session.component.ts:115-124 | every field is back at its declared initial value, so the run button is disabled |
| `SaintSessionUi.SaintSessionComponent.StartSession` | frontend/src/app/components/saint-session/saint-session.component.ts:25-27 | the request starts from a fully reset component |
| `SaintSessionUi.SaintSessionComponent.StartSessionNext` | frontend/src/app/components/saint-session/saint-session.component.ts:28-30 | only the success callback sets `sessionId` |
| `SaintSessionUi.SaintSessionComponent.StartSessionError` | frontend/src/app/components/saint-session/saint-session.component.ts:31-33 | the error message is recorded and nothing else changes |
| `SaintSessionUi.SaintSessionComponent.OnFileSelected` | frontend/src/app/components/saint-session/saint-session.component.ts:37-43 | without a file nothing changes; otherwise the slot's name and file are recorded, and an upload for that session, slot and file is issued exactly when a session exists |
| `SaintSessionUi.SaintSessionComponent.UploadNext` | frontend/src/app/components/saint-session/saint-session.component.ts:44-47 | the slot joins the uploaded set; re-uploading a slot leaves its size unchanged, a new slot adds one |
| `SaintSessionUi.SaintSessionComponent.UploadError` | frontend/src/app/components/saint-session/saint-session.component.ts:48-50 | the error message is recorded |
| `SaintSessionUi.SaintSessionComponent.RunProcess` | frontend/src/app/components/saint-session/saint-session.component.ts:59-65 | without a session nothing changes and nothing is sent; otherwise `running` is set, `runSuccess`, `errorMsg` and `canDownload` are cleared, the run is requested, and `canRun` is false |
| `SaintSessionUi.SaintSessionComponent.RunNext` | frontend/src/app/components/saint-session/saint-session.component.ts:66-75 | on `res.success`, `runSuccess` and `canDownload` are set; otherwise `errorMsg` is stderr or 'Process failed'; `running` ends false on both paths |
| `SaintSessionUi.SaintSessionComponent.RunError` | frontend/src/app/components/saint-session/saint-session.component.ts:76-81 | `errorMsg` is `RunErrorMessage` of the error text (the prefix, then the text from the first crash marker or all of it) and `running` ends false |
| `SaintSessionUi.SaintSessionComponent.DownloadResult` | frontend/src/app/components/saint-session/saint-session.component.ts:85-87 | the download is requested exactly when a session exists, and nothing changes |
| `SaintSessionUi.SaintSessionComponent.DownloadError` | frontend/src/app/components/saint-session/saint-session.component.ts:99-101 | the error message is recorded |
| `SaintSessionUi.SaintSessionComponent.DeleteSession` | frontend/src/app/components/saint-session/saint-session.component.ts:105-107 | the delete is requested exactly when a session exists, and nothing changes yet |
| `SaintSessionUi.SaintSessionComponent.DeleteSessionNext` | frontend/src/app/components/saint-session/saint-session.component.ts:108 | a confirmed delete performs exactly `resetUI` |
| `SaintSessionUi.SaintSessionComponent.DeleteSessionError` | frontend/src/app/components/saint-session/saint-session.component.ts:109-111 | the error message is recorded |
| `SaintSessionUi.OneSuccessfulRun` | frontend/src/app/components/saint-session/saint-session.component.ts:25-83 | start, three uploads and a successful run leave a downloadable result; `canRun` is false with two slots and true with three |

`canDownload` is set only by `RunNext` on a successful reply. It is cleared by
`RunProcess` and `ResetUI`. No other transition names it in its `modifies`
clause.

## Left out

- Docker and `subprocess.run` (backend/app/job_executor.py:55-62) are a foreign process call. They are the function `Host.docker`. What the container does to the workspace is the input `after` of `RunSaintexpress`, for every outcome. The `except Exception` arm (lines 69-74) also catches errors raised after the container ran, such as a failure to decode its output under `text=True`. So an exit code 1 result may come with a workspace the container changed.
- A timeout kills only the `docker` client process. The container itself can go on running and write list.txt after the 124 reply has been sent. The model sees only the workspace as it stands when the job returns, not writes that arrive later.
- `MapOutcome`: Python's `TimeoutExpired.stdout`/`stderr` can be bytes even with `text=True`, and then the concatenation at line 67 would raise. The model takes the captured streams as text, as the code intends.
- The `ThreadPoolExecutor` and the asyncio bridge (backend/app/job_executor.py:86-89) are concurrency. Each call makes a fresh 4-worker pool, so there is no shared bound or queue to model. `RunSaintexpressJob` is a plain pass-through.
- Logging (`logger.info`, `shlex.join`) and `backend/app/logging_config.py` are output only.
- FastAPI setup, CORS, the chunking of `StreamingResponse` and the timing of the `BackgroundTask` are framework concerns. Delete removes the session's entry at once. A directory named list.txt gets `StreamAborted`, because `exists()` passes and `open` then fails mid-response.
- `uuid.UUID` parsing internals are library code. `TokenParser` states only the two properties the model relies on.
- `uuid.uuid4()` is randomness. `StartSession` takes the generated string as a parameter whose canonical form is required.
- Text decoding and OS read/write errors are the abstract inputs `TextReader` and `WriteFault`. The `IsADirectoryError` text Python produces for a directory in a file's place is written out. Other `mkdir` failures in `start_session`, which FastAPI turns into a plain 500, are not modelled.
- `AbsPath`: `os.path.abspath` also normalises `.`, `..` and repeated separators; the model does not. The path the run endpoint passes is already absolute and normal, so it is unchanged either way (`ExecutorMatchesStore`).
- The `size` field comes from `stat()` after the read. It is the length of the bytes that were read, because nothing else writes between the two calls in this sequential model.
- `frontend/src/app/services/saint-api.service.ts` is an HTTP client and is not part of this model. In particular, Angular passes the backend's 500 replies to the `error` callback with the client's own message. So the `!res.success` branch of `RunNext` is defensive, and the `err.message` reaching `RunError` is whatever that service produced.
- The `next` callback of `downloadResult` (lines 88-98) creates a blob URL and clicks a link. That is browser work.
- `frontend/src/app/app.module.ts` is Angular wiring.
- Asynchronous ordering: the callback methods can be called at any time, in any order. This over-approximates what the browser's event loop allows. All the component's properties hold under every order.
- JavaScript strings are UTF-16 code units; the model's strings are sequences of `char`, so indices agree only on text without surrogate pairs.
- JavaScript truthiness is modelled as written: `runProcess`, `downloadResult` and `deleteSession` treat an empty `sessionId` as absent, while `canRun` checks only `!= null`.

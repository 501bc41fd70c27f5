# Chunked upload of `uploadByPieces`, modelled and proved in Dafny

`uploadByPieces` in `src/utils/index.js` uploads one browser file to an
object-store backend in pieces. The flow is:

1. It asks the backend for an upload identifier (`/file/initiatePart`) and calls `onStart`.
   As written, reading the identifier throws, so every session hangs at this
   step (see "## Findings"). Steps 2–5 and the model that follows describe the
   program with the identifier read from the response body, as intended.
2. It cuts the file into 10 MiB chunks.
3. It uploads the chunks as numbered parts (`/file/uploadPartNew`), in
   consecutive windows of `ceil(6 / fileList.length)` requests. It waits
   for each window's `Promise.all` before starting the next one.
4. On each request's progress callback it reports the loaded share of
   the file, capped at 99.9 %.
5. Finally it asks the backend to merge the parts
   (`/file/mergePartNew`) and calls `onSuccess`. Any failure after the
   initiate cancels the token, calls `onFail` and returns the error.

The project has these parts:

- `ChunkPlan`: the chunk count, the byte range of each chunk, the planned
  `chunkList`, and part numbering.
- `Batching`: the window size and how `splice` drains the working list.
- `Progress`: the summed, capped progress percentage, computed in exact
  rationals.
- `Remote`: the three backend calls, as oracle replies. It also holds the
  rules by which `src/utils/http.js` and `uploadChunk` turn a reply into
  success or failure.
- `Protocol`: a whole session as a pure function: `Session` with the
  identifier read as intended, and `SessionAsWritten` as the code reads it. It maps the
  replies to the events an observer sees (requests sent, callbacks made,
  the cancellation) and to the value the returned promise settles with,
  if it settles at all.
- `Uploader`: the function, with the identifier read as intended, as the
  class `UploadSession`.
  - The closure variables (`uploadId`, `chunkList`, the cancel token) are
    its fields.
  - Its loops are `while`/`for` loops with invariants.
  - `UploadByPieces` is proved to produce exactly `Session`'s events and
    outcome.
- `SessionProperties`, `SessionTheorems` and `ProgressOrder`: what the function promises
  its caller, proved about `Session`:
  - when the promise hangs or settles;
  - which lifecycle callbacks fire, and in which order;
  - when the merge is requested;
  - which parts are uploaded, and in what order;
  - how far a failing upload gets;
  - that progress stays within 0–99.9 %, and never decreases while axios reports growing counts;
  - that nothing happens after the session starts to settle.

The backend is an input. Each request's outcome is a `Reply`:

- `Rejected` is anything axios rejects: a network error, a timeout, a
  status outside 2xx, or a cancellation.
- `Answered` is a response carrying a JSON payload with `code`,
  `chnDesc` and `content`.

A part upload is a `PartReply`: the `e.loaded` values its progress
callback receives, in order, plus its final reply. The file is its name
and its size; `fileList` is its length.

## Model

| member | source | states |
|---|---|---|
| ChunkPlan.ChunkCount | src/utils/index.js:32-33 | the chunk count is the least n with n·10 MiB ≥ size; it is 0 exactly for an empty file |
| ChunkPlan.ChunkRange | src/utils/index.js:54-59 | chunk `index` starts at index·10 MiB. Every planned chunk is non-empty, lies inside the file and is at most 10 MiB. Every chunk but the last is exactly 10 MiB, and the last ends at the file's end |
| ChunkPlan.NewChunk | src/utils/index.js:97-101 | reference definition of the item pushed for chunk `index`: `loaded` 0, the index, and the chunk's byte range; `Planned` states it item by item |
| ChunkPlan.Planned | src/utils/index.js:93-102 | the planned list has one item per chunk; item k has `loaded` 0, `index` k and the range of chunk k |
| ChunkPlan.PartNumber | src/utils/index.js:64 | part numbers are at least 1 |
| ChunkPlan.RangesContiguous | src/utils/index.js:55-56 | each chunk ends exactly where the next one starts |
| ChunkPlan.RangesSpanFile | src/utils/index.js:55-56 | the first chunk starts at byte 0 and the last ends at the file size |
| ChunkPlan.ByteInExactlyOneChunk | src/utils/index.js:54-59 | every byte of the file lies in exactly one planned chunk, chunk b / 10 MiB |
| ChunkPlan.EmptyFileHasNoChunks | src/utils/index.js:33 | a zero-byte file is planned as no chunks at all |
| ChunkPlan.TwentyFiveMiBFile | src/utils/index.js:32-33 | a 25 MiB file has three chunks, of 10, 10 and 5 MiB |
| Batching.Window | src/utils/index.js:110 | for a non-empty file list, the window is between 1 and 6 requests |
| Batching.WindowIsCeiling | src/utils/index.js:110 | the window is the ceiling of 6 / fileList.length: the least w with w·files ≥ 6 |
| Batching.SpliceLength | src/utils/index.js:110 | `splice` takes exactly one window when at least a window is left, and everything when fewer are left. It always takes at least one item, and takes everything when the file list is empty (`Math.ceil(6 / 0)` is Infinity) |
| Batching.Batches | src/utils/index.js:109-110 | reference definition of the windows `splice` takes off the working list, in order; its properties are stated by `FlattenBatches`, `BatchSizes`, `BatchCount` and `NoFilesOneBatch` |
| Batching.FlattenBatches | src/utils/index.js:106-112 | the windows, put back together, are the working list |
| Batching.BatchSizes | src/utils/index.js:109-110 | every window is non-empty and at most the window size; every window but the last is exactly the window size |
| Batching.BatchCount | src/utils/index.js:109-110 | there are ceil(n / window) windows: n items fit in that many and not in one fewer, and there are none iff the list is empty |
| Batching.NoFilesOneBatch | src/utils/index.js:110 | with an empty file list all chunks go in one window |
| Batching.WindowExamples | src/utils/index.js:110 | the window is 6, 3, 2, 1 and 1 requests for 1, 2, 3, 6 and 7 files |
| Progress.Sum | src/utils/index.js:76 | reference definition of `chunkList.reduce((prev, cur) => prev + cur.loaded, 0)`, folded from the left; its properties are stated by `SumUpdate`, `ProgressOfZeros` and `TotalProgress` |
| Progress.TotalProgress | src/utils/index.js:76-78 | the reported percentage lies in [0, 99.9]. Below the cap it equals the summed `loaded` counters over the file size, times 100; when that share reaches 99.9 the report is 99.9 |
| Progress.SumUpdate | src/utils/index.js:74-76 | overwriting one slot's counter changes the sum by exactly the difference |
| Progress.ProgressMonotone | src/utils/index.js:74-78 | raising one slot's counter never lowers the reported percentage |
| Progress.ProgressOfZeros | src/utils/index.js:97-101 | a freshly planned list, with all counters 0, reports 0 % |
| Remote.Http | src/utils/http.js:19-31 | an axios rejection is passed on unchanged. A payload whose code is not 200 becomes an error carrying `chnDesc`, or 'Error' when that is empty. Any other reply resolves with the whole response object |
| Remote.PartResult | src/utils/index.js:81-86 | a part upload resolves with the payload iff the reply came back with code 200. A code other than 200 rejects with the payload, because `reject` runs first; a transport rejection is passed on |
| Remote.InitUploadId | src/utils/index.js:39-46 | the initiate settles iff the http.js call succeeds, and then yields the payload `content`'s `uploadId` (the corrected reading) |
| Remote.EnvelopeContent | src/utils/index.js:41 | reference definition of the `content` member of the axios response object, which has none; `InitiateAsWrittenNeverSettles` states the consequence |
| Remote.InitUploadIdAsWritten | src/utils/index.js:39-46 | reference definition of `initChunk` as written, destructuring `content` from the response object; `InitiateAsWrittenNeverSettles` and `SessionAsWrittenHangs` state that it never yields an identifier |
| Remote.InitiateAsWrittenNeverSettles | src/utils/index.js:41-42 | as written, a successful initiate never settles, while the corrected reading yields the upload identifier |
| Protocol.Issues | src/utils/index.js:111 | reference definition of the requests `requests.map((item) => uploadChunk(item.index))` sends; `IssuesAreUploads` states one upload of part `index + 1` per item, in order |
| Protocol.JoinError | src/utils/index.js:111 | reference definition of how `Promise.all` over a window fails; `JoinSucceedsIff` and `JoinErrorOfMember` state that it fails iff some member fails, and then with a member's error |
| Protocol.Caught | src/utils/index.js:117-122 | reference definition of the `catch`: the cancellation, `onFail`, and the error as the returned value; `SessionCancel` and `SessionCallbacks` state its effect on a session |
| Protocol.SessionLoop | src/utils/index.js:105-112 | reference definition of the upload loop over the planned list after `onStart`; `LoopSucceedsIff` and `LoopEvents` state its properties |
| Protocol.SessionFrom | src/utils/index.js:90-122 | reference definition of a session once the initiate is decided: hung, or `onStart`, the loops, the merge and the `try`/`catch` settlement; the SessionTheorems lemmas state its properties |
| Protocol.Session | src/utils/index.js:26-123 | reference definition of one session with the identifier read as intended; `UploadSession.UploadByPieces` is proved equal to it, and the SessionTheorems and ProgressOrder lemmas state what it promises |
| Protocol.SessionAsWritten | src/utils/index.js:26-123 | reference definition of one session as written; `SessionAsWrittenHangs` states that it always hangs after the initiate |
| Protocol.ChunkProgress | src/utils/index.js:72-79 | a request's progress callbacks never change the number of `chunkList` slots |
| Protocol.BatchProgress | src/utils/index.js:111 | a window's progress callbacks never change the number of `chunkList` slots |
| Protocol.UploadPhase | src/utils/index.js:109-112 | the upload loop never changes the number of `chunkList` slots |
| SessionProperties.IssuesAreUploads | src/utils/index.js:111 | a window sends one upload per item, in order, for part `index + 1` of each |
| SessionProperties.ChunkProgressGrows | src/utils/index.js:72-79 | a request's progress callbacks only append progress reports whose total is within [0, 99.9], send no upload, and change no `chunkList` slot but their own |
| SessionProperties.BatchProgressGrows | src/utils/index.js:72-79 | a window's progress callbacks only append progress reports within [0, 99.9], send no upload, and change no `chunkList` slot except those of the window's own requests |
| SessionProperties.JoinSucceedsIff | src/utils/index.js:111 | `Promise.all` over a window resolves iff every request in it resolves |
| SessionProperties.JoinErrorOfMember | src/utils/index.js:111 | a failed join fails with the error of one of its own requests |
| SessionProperties.Joined | src/utils/index.js:109-111 | the loop sends at least one window iff the working list is non-empty |
| SessionProperties.JoinedAreBatches | src/utils/index.js:109-111 | the windows the loop sends are, in order, the leading windows that `splice` takes off the list |
| SessionProperties.JoinedBeforeLastSucceed | src/utils/index.js:109-111 | every window sent before the last one joined without error; the loop only goes on after a successful `await` |
| SessionProperties.JoinedAll | src/utils/index.js:109-112 | when the last window sent joined without error, every window of the list was sent |
| SessionProperties.UploadPhaseGrows | src/utils/index.js:109-112 | the upload loop only appends uploads and capped progress reports to what was observed before |
| SessionProperties.UploadPhaseError | src/utils/index.js:109-112 | the loop fails iff the last window it sends fails to join, and then with that join's error |
| SessionProperties.UploadPhaseIssues | src/utils/index.js:109-111 | the uploads the loop sends are exactly the requests of the windows it sends, in order |
| SessionProperties.UploadPhaseSucceedsIff | src/utils/index.js:109-112 | the loop ends without error iff every request of the working list succeeds |
| SessionTheorems.LoopSucceedsIff | src/utils/index.js:106-112 | over the planned chunks, the loop ends without error iff every part 0 … chunkCount-1 succeeds |
| SessionTheorems.LoopEvents | src/utils/index.js:106-112 | after `onStart` the loop emits only traffic, sends the requests of its windows, and fails with the last window's error |
| SessionTheorems.SessionHangsIff | src/utils/index.js:39-46 | with the identifier read as intended, the returned promise never settles iff the initiate fails, and then nothing but the initiate request happens |
| SessionTheorems.SessionAsWrittenHangs | src/utils/index.js:39-46 | as written, every session is the initiate request and nothing else, and its promise never settles, whatever the replies; with the intended reading a code-200 initiate does settle |
| SessionTheorems.SessionShape | src/utils/index.js:90-122 | a settled session is, in order: the initiate, `onStart`, only uploads and capped progress reports, then the merge and the final callbacks |
| SessionTheorems.SessionOutcome | src/utils/index.js:113-121 | a settled session returns the upload loop's error, or else what the merge returns |
| SessionTheorems.SessionCallbacks | src/utils/index.js:115-120 | nothing fires for a hung session. Otherwise `onStart` fires, then exactly one of `onSuccess` (with the value returned) and `onFail` (with the error returned) |
| SessionTheorems.SessionCancel | src/utils/index.js:117-118 | `cancel('上传失败')` is called once iff the session returns an error |
| SessionTheorems.SessionMerge | src/utils/index.js:109-113 | the merge is requested, once, iff the initiate settles and every part upload succeeds |
| SessionTheorems.SessionSucceedsIff | src/utils/index.js:90-116 | the session returns a success iff the initiate settles, every part succeeds and the merge succeeds; the value is the merge's response object |
| SessionTheorems.SessionUploads | src/utils/index.js:105-112 | the part uploads sent are exactly those of the windows the loop sends, in order |
| SessionTheorems.SessionUploadsAllParts | src/utils/index.js:93-112 | when every part succeeds, every planned chunk is uploaded exactly once, in index order |
| SessionTheorems.PlannedUploads | src/utils/index.js:64 | the uploads of the planned chunks are parts 1 … chunkCount, in order |
| SessionTheorems.SessionFailsAtWindow | src/utils/index.js:109-121 | when some part fails, the loop sends a non-empty run of leading windows, and all but the last of them joined. The session returns the last window's join error |
| ProgressOrder.ChunkProgressOrdered | src/utils/index.js:72-79 | when one request's `e.loaded` values grow from at least its slot's counter, its reports are appended in non-decreasing order, no lower than any earlier report, and the total never drops |
| ProgressOrder.BatchProgressOrdered | src/utils/index.js:72-79 | when every request's values grow and each request of the window has its own slot still at 0, the window's reports keep the session's reports sorted and the total never drops |
| ProgressOrder.UploadPhaseOrdered | src/utils/index.js:105-112 | the upload loop over requests with distinct, untouched slots keeps all reports sorted and none above the current total |
| ProgressOrder.SessionProgressSorted | src/utils/index.js:72-122 | when axios reports growing `e.loaded` values for every part, the progress reports of a session never decrease |
| SessionTheorems.SessionOrder | src/utils/index.js:72-121 | every progress report is within [0, 99.9], and once the merge, the cancellation or a final callback has happened, only such events follow |
| SessionTheorems.EmptyFileSession | src/utils/index.js:93-113 | for a zero-byte file the merge is requested right after `onStart`, and the session ends as the merge does |
| SessionTheorems.TwentyFiveMiBSession | src/utils/index.js:93-112 | a 25 MiB file whose parts all succeed is uploaded as parts 1, 2 and 3, in that order |
| Uploader.UploadSession.constructor | src/utils/index.js:29-36 | a session starts with an empty upload identifier, an empty `chunkList`, a live token and nothing observed |
| Uploader.UploadSession.InitChunk | src/utils/index.js:39-46 | the initiate request is sent. Iff it settles, the identifier is stored and `onStart` is called; otherwise nothing else changes and the caller hangs |
| Uploader.UploadSession.PlanChunks | src/utils/index.js:93-102 | the planning loop leaves `chunkList` equal to the planned list |
| Uploader.UploadSession.OnUploadProgress | src/utils/index.js:72-79 | only slot `index`'s `loaded` changes. The reported total is the capped percentage of the new list, and one report is appended |
| Uploader.UploadSession.UploadChunk | src/utils/index.js:62-71 | one upload of part `index + 1` under the current identifier is sent |
| Uploader.UploadSession.SendRequests | src/utils/index.js:111 | every request of the window is sent, in order |
| Uploader.UploadSession.DeliverProgress | src/utils/index.js:72-79 | one request's callbacks leave `chunkList` and the observations as `ChunkProgress` describes |
| Uploader.UploadSession.DeliverBatchProgress | src/utils/index.js:111 | a window's callbacks leave `chunkList` and the observations as `BatchProgress` describes |
| Uploader.UploadSession.RunBatch | src/utils/index.js:111 | the window is sent and its progress delivered; the result is `Promise.all`'s error, if any |
| Uploader.UploadSession.MergeChunk | src/utils/index.js:49-51 | the merge request is sent and returns what http.js makes of the reply |
| Uploader.UploadSession.CancelToken | src/utils/index.js:118 | the first cancellation reason sticks; the cancellation is observed |
| Uploader.UploadSession.Catch | src/utils/index.js:117-122 | the token is cancelled with '上传失败', `onFail` is called with the error, and the error is returned |
| Uploader.UploadSession.DrainRequests | src/utils/index.js:105-112 | the `while (requestsList.length)` loop leaves the observations, `chunkList` and the error exactly as the reference loop `UploadPhase` does |
| Uploader.UploadSession.UploadByPieces | src/utils/index.js:26-123 | the method's observations and outcome are exactly `Session`'s. The session itself calls `cancel('上传失败')` iff an error is returned |

## Left out

- `formatBytes` (src/utils/index.js:3-12) is a display helper that the upload does not use.
- The axios instance settings in src/utils/http.js (base URL, 30-second timeout, pass-through request interceptor) and the debug `console.log` are left out. A timeout is one more `Rejected` reply.
- src/main.js and vue.config.js (application wiring and dev-server proxy) are not part of this model.
- ProgressOrder.SessionProgressSorted: progress is proved never to decrease only when every part's `e.loaded` values grow (`GrowingProgress`). The code relies on axios for that and never checks it.
- `fileList.length` is read once, as the session's `fileCount`. The program re-reads it before every `splice` (src/utils/index.js:110), and `fileList` is an array the caller owns. A caller that grows or shrinks that array during an upload changes the size of later windows. The model, and with it `BatchSizes`, `BatchCount` and `JoinedAreBatches`, assumes one window size for the whole session.
- Floating point: the progress percentage is computed in exact rationals. Double rounding in `reduce`, the division and `Math.min` is not modelled.
- Concurrency inside `Promise.all` is not modelled.
  - A window's requests are sent in index order.
  - Their progress callbacks are then delivered request by request, in that order, and the join comes after.
  - Callbacks of different requests are not interleaved, and there are no callbacks after the join.
  - The join's error is that of the lowest-index failing request. `Promise.all` rejects with the first failure in time.
- Cancellation is modelled as the `Cancel` event plus the token's stored reason. Aborting the requests still in flight belongs to axios and is not modelled.
- A cancellation by the caller, through the `cancelTokenSource` that `onStart` hands out (src/utils/index.js:43), is not modelled as an action. It shows up only as `Rejected` part replies. In the program the token's reason is then the caller's, and the `catch`'s `cancel('上传失败')` has no effect. A caller cancelling after the last part but before the merge leaves a successful session with a cancelled token, since `mergeChunk` does not use the token. `cancelReason` in the model records only the session's own call.
- `file.slice` and `FormData`: a chunk's data is represented by its byte range only.
- `console.error` in the `catch` block prints and has no effect on the model.
- The callbacks `onStart`, `onProgress`, `onSuccess` and `onFail` are assumed not to throw. Their calls are recorded as events.
- The URLs and query strings are represented by the parameters their events carry: file name, part number, upload identifier.
- `chunkList` is a sequence field reassigned on each change. It stands for the JavaScript array grown by `push` and updated in place.
- The working copy `requestsList` holds the items themselves; only their `index` is read.
- ChunkPlan.PartNumber: its own contract says only that part numbers are at least 1. The exact numbering `index + 1` is stated by SessionProperties.IssuesAreUploads and SessionTheorems.PlannedUploads.
- Protocol.ChunkProgress: its own contract gives only the slot count. What it emits is stated by SessionProperties.ChunkProgressGrows, and the class method `DeliverProgress` is proved equal to it.
- Protocol.BatchProgress: its own contract gives only the slot count. Its behaviour is stated by SessionProperties.BatchProgressGrows.
- Protocol.UploadPhase: its own contract gives only the slot count. Its behaviour is stated by the SessionProperties lemmas `UploadPhaseGrows`, `UploadPhaseError`, `UploadPhaseIssues` and `UploadPhaseSucceedsIff`.
- There is no lemma placing window i at positions i·window … of the list. The window sizes (`BatchSizes`), the window count (`BatchCount`) and their concatenation (`FlattenBatches`) determine it.
- Protocol.Session, Uploader.UploadSession.InitChunk, Uploader.UploadSession.UploadByPieces and the SessionProperties and SessionTheorems lemmas about `Session` describe the program with src/utils/index.js:41-42 read as `response.data.content.uploadId`. As written, every session ends `Hung` right after the `Initiate` event; `SessionAsWritten` and `SessionAsWrittenHangs` state that.

## Findings

| source | as written | input that shows it | evidently intended | confidence | as-written member | corrected member |
|---|---|---|---|---|---|---|
| src/utils/index.js:41-42 | `const { content } = await $http.post(...)` destructures the axios response object, which the http.js interceptor resolves with (src/utils/http.js:25). That object has no `content` member, so `content.uploadId` throws inside the `async` executor: `resolve` is never reached and every session hangs before `onStart` | an initiate answered with code 200 and `content.uploadId = "u1"` | read the identifier from the body, `response.data.content.uploadId`, then call `onStart` and go on uploading | not executed | Remote.InitUploadIdAsWritten, Remote.InitiateAsWrittenNeverSettles, SessionTheorems.SessionAsWrittenHangs | Remote.InitUploadId |

/**
 * What one run of `uploadByPieces` does, as a pure function of the file
 * and of the replies the backend gives: the sequence of observable events
 * (requests sent, callbacks fired, the cancellation) and the value the
 * returned promise settles with, if it settles at all. `Session` reads
 * the upload identifier from the response body, as `initChunk` evidently
 * intends; `SessionAsWritten` reads it as the code does, and hangs after
 * the initiate whatever the backend answers. The class in uploader.dfy is
 * proved to produce exactly `Session`; session_properties.dfy and
 * session_theorems.dfy prove what the source promises about it.
 */
module Protocol {
  import opened Wrappers
  import opened ChunkPlan
  import opened Batching
  import opened Progress
  import opened Remote

  /** Every item of `b` addresses one of `n` slots. */
  predicate Indexed(b: seq<Chunk>, n: nat)
  {
    forall k :: 0 <= k < |b| ==> b[k].index < n
  }

  /**
   * What the backend does with one part upload: the `e.loaded` values axios
   * reports through `onUploadProgress`, in order, and how the request ends.
   */
  datatype PartReply = PartReply(progress: seq<nat>, reply: Reply)

  /** The reason given to `cancelTokenSource.cancel` in the `catch`. */
  const FailReason: string := "上传失败"

  /** What an observer of one session sees, in order. */
  datatype Event =
    | Initiate(fileName: string)               // POST /file/initiatePart
    | Start                                    // onStart({ cancelTokenSource })
    | Upload(uploadId: string, partNumber: nat) // POST /file/uploadPartNew
    | Report(index: nat, loaded: nat, percent: real) // onProgress(e, file)
    | Merge(uploadId: string)                  // GET /file/mergePartNew
    | Cancel(reason: string)                   // cancelTokenSource.cancel(reason)
    | Success(result: HttpResponse)            // onSuccess(successRes)
    | Fail(error: Error)                       // onFail(e)

  /** How the promise `uploadByPieces` returns ends: never, or with the merge reply or the error. */
  datatype Outcome = Hung | Returned(value: Result<HttpResponse, Error>)

  /** The events of one session and its outcome. */
  datatype Transcript = Transcript(events: seq<Event>, outcome: Outcome)

  /** The requests of one window, sent in order by `requests.map(item => uploadChunk(item.index))`. */
  function Issues(uploadId: string, batch: seq<Chunk>): seq<Event>
    decreases |batch|
  {
    if batch == [] then [] else [Upload(uploadId, PartNumber(batch[0].index))] + Issues(uploadId, batch[1..])
  }

  /**
   * What has been observed so far, together with the current `chunkList`.
   * The functions below extend it event by event, the way the callbacks
   * append to what an observer sees.
   */
  datatype State = State(events: seq<Event>, chunks: seq<Chunk>)

  /**
   * The progress callbacks of one request: each overwrites the counter of
   * slot `index` with the reported `e.loaded` and reports the new total.
   */
  function ChunkProgress(index: nat, values: seq<nat>, s: State, size: nat): (r: State)
    requires index < |s.chunks| && size > 0
    ensures |r.chunks| == |s.chunks|
    decreases |values|
  {
    if values == [] then s
    else
      var chunks' := s.chunks[index := s.chunks[index].(loaded := values[0])];
      var report := Report(index, values[0], TotalProgress(chunks', size));
      ChunkProgress(index, values[1..], State(s.events + [report], chunks'), size)
  }

  /** The progress callbacks of one window, request by request in the order they were sent. */
  function BatchProgress(batch: seq<Chunk>, parts: nat -> PartReply, s: State, size: nat): (r: State)
    requires Indexed(batch, |s.chunks|) && (|s.chunks| > 0 ==> size > 0)
    ensures |r.chunks| == |s.chunks|
    decreases |batch|
  {
    if batch == [] then s
    else
      var first := ChunkProgress(batch[0].index, parts(batch[0].index).progress, s, size);
      BatchProgress(batch[1..], parts, first, size)
  }

  /** `Promise.all` over one window: it fails iff some member fails, here with the first one's error. */
  function JoinError(batch: seq<Chunk>, parts: nat -> PartReply): Option<Error>
    decreases |batch|
  {
    if batch == [] then None
    else
      match PartResult(parts(batch[0].index).reply)
      case Err(e) => Some(e)
      case Ok(_) => JoinError(batch[1..], parts)
  }

  /** Where the upload loop leaves the observation, and the error it stopped with. */
  datatype Phase = Phase(state: State, error: Option<Error>)

  /**
   * The `while (requestsList.length)` loop over the working list `xs`: the
   * next window is spliced off the front, sent, its progress reported and
   * its join awaited; a failed join throws out of the loop, otherwise the
   * loop goes on with what is left.
   */
  function UploadPhase(uploadId: string, xs: seq<Chunk>, fileCount: nat, parts: nat -> PartReply,
                       s: State, size: nat): (p: Phase)
    requires Indexed(xs, |s.chunks|) && (|s.chunks| > 0 ==> size > 0)
    ensures |p.state.chunks| == |s.chunks|
    decreases |xs|
  {
    if xs == [] then Phase(s, None)
    else
      var requests := xs[..SpliceLength(fileCount, |xs|)];
      var sent := State(s.events + Issues(uploadId, requests), s.chunks);
      var progress := BatchProgress(requests, parts, sent, size);
      match JoinError(requests, parts)
      case Some(e) => Phase(progress, Some(e))
      case None => UploadPhase(uploadId, xs[|requests|..], fileCount, parts, progress, size)
  }

  /** The `catch`: cancel the token, report the error, and return it as the value. */
  function Caught(head: seq<Event>, e: Error): Transcript
  {
    Transcript(head + [Cancel(FailReason), Fail(e)], Returned(Err(e)))
  }

  /** The upload loop of a session with identifier `uploadId`, over all planned chunks, after `onStart`. */
  function SessionLoop(uploadId: string, fileName: string, size: nat, fileCount: nat,
                       parts: nat -> PartReply): Phase
  {
    var chunks := Planned(size);
    UploadPhase(uploadId, chunks, fileCount, parts, State([Initiate(fileName), Start], chunks), size)
  }

  /**
   * One session once the initiate has been decided: `None` is an initiate
   * whose promise never settles; `Some(id)` is followed by `onStart`, the
   * planning loop, the upload loop, then the merge and `onSuccess`; any
   * rejection after the initiate ends in the `catch`.
   */
  function SessionFrom(fileName: string, size: nat, fileCount: nat, initId: Option<string>,
                       parts: nat -> PartReply, merge: Reply): Transcript
  {
    match initId
    case None => Transcript([Initiate(fileName)], Hung)
    case Some(id) =>
      var phase := SessionLoop(id, fileName, size, fileCount, parts);
      var head := phase.state.events;
      match phase.error
      case Some(e) => Caught(head, e)
      case None =>
        match Http(merge)
        case Ok(res) => Transcript(head + [Merge(id), Success(res)], Returned(Ok(res)))
        case Err(e) => Caught(head + [Merge(id)], e)
  }

  /** One session, with the upload identifier read from the body as intended (`InitUploadId`). */
  function Session(fileName: string, size: nat, fileCount: nat, init: Reply,
                   parts: nat -> PartReply, merge: Reply): Transcript
  {
    SessionFrom(fileName, size, fileCount, InitUploadId(init), parts, merge)
  }

  /** One session as written, with the identifier destructured from the response object (`InitUploadIdAsWritten`). */
  function SessionAsWritten(fileName: string, size: nat, fileCount: nat, init: Reply,
                            parts: nat -> PartReply, merge: Reply): Transcript
  {
    SessionFrom(fileName, size, fileCount, InitUploadIdAsWritten(init), parts, merge)
  }
}

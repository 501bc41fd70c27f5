/**
 * `uploadByPieces`, with the upload identifier read from the response
 * body as `initChunk` evidently intends. The variables its inner closures share
 * (`uploadId`, `chunkList`, `cancelTokenSource`) are the fields of one
 * session object; the inner arrow functions are its methods; what an
 * observer sees (requests sent, callbacks fired) is appended to `trace`.
 */
module Uploader {
  import opened Wrappers
  import opened ChunkPlan
  import opened Batching
  import opened Progress
  import opened Remote
  import opened Protocol

  class UploadSession {
    const fileName: string      // file.name
    const totalSize: nat        // file.size
    const fileCount: nat        // fileList.length
    var uploadId: string
    var chunkList: seq<Chunk>
    var cancelReason: Option<string>   // the reason the cancel token carries, once cancelled
    var trace: seq<Event>

    /** Only a non-empty file has planned chunks, so the progress division is defined. */
    ghost predicate Valid()
      reads this
    {
      |chunkList| > 0 ==> totalSize > 0
    }

    /** The state right after the declarations at the top of `uploadByPieces`. */
    ghost predicate Fresh()
      reads this
    {
      uploadId == "" && chunkList == [] && cancelReason.None? && trace == []
    }

    constructor (fileName: string, totalSize: nat, fileCount: nat)
      ensures this.fileName == fileName && this.totalSize == totalSize && this.fileCount == fileCount
      ensures Fresh() && Valid()
    {
      this.fileName, this.totalSize, this.fileCount := fileName, totalSize, fileCount;
      uploadId, chunkList, cancelReason, trace := "", [], None, [];
    }

    /**
     * `initChunk`, with the identifier read from the response body as
     * intended: ask for an upload identifier; once it is known, store it
     * and call `onStart`. When the request fails the promise never settles.
     */
    method InitChunk(reply: Reply) returns (settled: bool)
      modifies this`uploadId, this`trace
      ensures settled == InitUploadId(reply).Some?
      ensures settled ==> uploadId == InitUploadId(reply).value
      ensures settled ==> trace == old(trace) + [Initiate(fileName), Start]
      ensures !settled ==> uploadId == old(uploadId) && trace == old(trace) + [Initiate(fileName)]
    {
      trace := trace + [Initiate(fileName)];
      var id := InitUploadId(reply);
      settled := id.Some?;
      if settled {
        uploadId := id.value;
        trace := trace + [Start];
      }
    }

    /** The `for` loop pushing one item per chunk onto `chunkList`. */
    method PlanChunks()
      requires chunkList == []
      modifies this`chunkList
      ensures chunkList == Planned(totalSize)
      ensures Valid()
    {
      var chunkCount := ChunkCount(totalSize);
      for index := 0 to chunkCount
        invariant chunkList == Planned(totalSize)[..index]
      {
        var chunk := ChunkRange(totalSize, index);
        chunkList := chunkList + [Chunk(0, index, chunk)];
      }
      assert Planned(totalSize)[..chunkCount] == Planned(totalSize);
    }

    /**
     * `onUploadProgress` of chunk `index`: overwrite that chunk's counter,
     * recompute the capped total and call `onProgress`. No other slot and no
     * other field of the item changes.
     */
    method OnUploadProgress(index: nat, loaded: nat) returns (totalProgress: real)
      requires Valid() && index < |chunkList|
      modifies this`chunkList, this`trace
      ensures Valid() && |chunkList| == old(|chunkList|)
      ensures chunkList[index] == old(chunkList[index]).(loaded := loaded)
      ensures forall j :: 0 <= j < |chunkList| && j != index ==> chunkList[j] == old(chunkList[j])
      ensures chunkList == old(chunkList)[index := old(chunkList)[index].(loaded := loaded)]
      ensures totalSize > 0 && totalProgress == TotalProgress(chunkList, totalSize)
      ensures trace == old(trace) + [Report(index, loaded, totalProgress)]
    {
      chunkList := chunkList[index := chunkList[index].(loaded := loaded)];
      totalProgress := TotalProgress(chunkList, totalSize);
      trace := trace + [Report(index, loaded, totalProgress)];
    }

    /** `uploadChunk(index)` sends part `index + 1`; how its promise settles is `PartResult`. */
    method UploadChunk(index: nat)
      modifies this`trace
      ensures trace == old(trace) + [Upload(uploadId, PartNumber(index))]
    {
      trace := trace + [Upload(uploadId, PartNumber(index))];
    }

    /** `requests.map(item => uploadChunk(item.index))`: every request of the window is sent, in order. */
    method SendRequests(requests: seq<Chunk>)
      modifies this`trace
      ensures trace == old(trace) + Issues(uploadId, requests)
    {
      ghost var sent: seq<Event> := [];
      var pending := requests;
      while pending != []
        invariant trace == old(trace) + sent
        invariant Issues(uploadId, requests) == sent + Issues(uploadId, pending)
        decreases |pending|
      {
        UploadChunk(pending[0].index);
        sent := sent + [Upload(uploadId, PartNumber(pending[0].index))];
        pending := pending[1..];
      }
    }

    /** The `onUploadProgress` callbacks of one request, in the order axios makes them. */
    method DeliverProgress(index: nat, values: seq<nat>)
      requires Valid() && index < |chunkList|
      modifies this`chunkList, this`trace
      ensures Valid() && |chunkList| == old(|chunkList|)
      ensures State(trace, chunkList) == ChunkProgress(index, values, State(old(trace), old(chunkList)), totalSize)
    {
      ghost var whole := ChunkProgress(index, values, State(trace, chunkList), totalSize);
      var pending := values;
      while pending != []
        invariant Valid() && |chunkList| == old(|chunkList|)
        invariant ChunkProgress(index, pending, State(trace, chunkList), totalSize) == whole
        decreases |pending|
      {
        var _ := OnUploadProgress(index, pending[0]);
        pending := pending[1..];
      }
    }

    /** The progress callbacks of one window, request by request in the order they were sent. */
    method DeliverBatchProgress(requests: seq<Chunk>, parts: nat -> PartReply)
      requires Valid() && Indexed(requests, |chunkList|)
      modifies this`chunkList, this`trace
      ensures Valid() && |chunkList| == old(|chunkList|)
      ensures State(trace, chunkList) == BatchProgress(requests, parts, State(old(trace), old(chunkList)), totalSize)
    {
      ghost var whole := BatchProgress(requests, parts, State(trace, chunkList), totalSize);
      var pending := requests;
      while pending != []
        invariant Valid() && |chunkList| == old(|chunkList|)
        invariant Indexed(pending, |chunkList|)
        invariant BatchProgress(pending, parts, State(trace, chunkList), totalSize) == whole
        decreases |pending|
      {
        var index := pending[0].index;
        DeliverProgress(index, parts(index).progress);
        pending := pending[1..];
      }
    }

    /**
     * One window: `await Promise.all(requests.map(item => uploadChunk(item.index)))`.
     * All requests are sent, their progress callbacks run, and the join
     * fails iff one of them failed.
     */
    method RunBatch(requests: seq<Chunk>, parts: nat -> PartReply) returns (failure: Option<Error>)
      requires Valid() && Indexed(requests, |chunkList|)
      modifies this`chunkList, this`trace
      ensures Valid() && |chunkList| == old(|chunkList|)
      ensures State(trace, chunkList)
              == BatchProgress(requests, parts, State(old(trace) + Issues(uploadId, requests), old(chunkList)), totalSize)
      ensures failure == JoinError(requests, parts)
    {
      SendRequests(requests);
      DeliverBatchProgress(requests, parts);
      failure := JoinError(requests, parts);
    }

    /** `mergeChunk`: ask the backend to assemble the uploaded parts. */
    method MergeChunk(reply: Reply) returns (r: Result<HttpResponse, Error>)
      modifies this`trace
      ensures r == Http(reply)
      ensures trace == old(trace) + [Merge(uploadId)]
    {
      trace := trace + [Merge(uploadId)];
      r := Http(reply);
    }

    /** `cancelTokenSource.cancel(reason)`: the first reason sticks, later calls change nothing. */
    method CancelToken(reason: string)
      modifies this`cancelReason, this`trace
      ensures cancelReason == if old(cancelReason).None? then Some(reason) else old(cancelReason)
      ensures trace == old(trace) + [Cancel(reason)]
    {
      if cancelReason.None? {
        cancelReason := Some(reason);
      }
      trace := trace + [Cancel(reason)];
    }

    /** The `catch` block: cancel the outstanding requests, call `onFail`, return the error. */
    method Catch(e: Error) returns (outcome: Outcome)
      modifies this`cancelReason, this`trace
      ensures cancelReason == if old(cancelReason).None? then Some(FailReason) else old(cancelReason)
      ensures trace == old(trace) + [Cancel(FailReason), Fail(e)]
      ensures outcome == Returned(Err(e))
    {
      CancelToken(FailReason);
      trace := trace + [Fail(e)];
      outcome := Returned(Err(e));
    }

    /**
     * The `while (requestsList.length)` loop: splice the next window off the
     * working copy, run it, and leave the loop when its join fails (the
     * exception the `await` throws). The events and the error are those of
     * `UploadPhase` over the windows of `requestsList`.
     */
    method DrainRequests(chunks: seq<Chunk>, parts: nat -> PartReply) returns (failure: Option<Error>)
      requires Valid() && Indexed(chunks, |chunkList|)
      modifies this`chunkList, this`trace
      ensures Valid() && |chunkList| == old(|chunkList|)
      ensures Phase(State(trace, chunkList), failure)
              == UploadPhase(uploadId, chunks, fileCount, parts, State(old(trace), old(chunkList)), totalSize)
    {
      ghost var whole := UploadPhase(uploadId, chunks, fileCount, parts, State(trace, chunkList), totalSize);
      var requestsList := chunks;
      failure := None;
      while requestsList != [] && failure.None?
        invariant Valid() && |chunkList| == old(|chunkList|)
        invariant Indexed(requestsList, |chunkList|)
        invariant failure.None? ==>
                    UploadPhase(uploadId, requestsList, fileCount, parts, State(trace, chunkList), totalSize) == whole
        invariant failure.Some? ==> Phase(State(trace, chunkList), failure) == whole
        decreases |requestsList|
      {
        var take := SpliceLength(fileCount, |requestsList|);
        var requests := requestsList[..take];
        requestsList := requestsList[take..];
        failure := RunBatch(requests, parts);
      }
    }

    /**
     * The body of `uploadByPieces`: initiate, plan, drain `requestsList`
     * window by window, merge, and report; a failure after the initiate
     * lands in `Catch`. The events and the outcome are exactly those of
     * `Session`, and the session calls `cancel('上传失败')` iff it returns
     * an error.
     */
    method UploadByPieces(init: Reply, parts: nat -> PartReply, merge: Reply) returns (outcome: Outcome)
      requires Fresh() && Valid()
      modifies this
      ensures Transcript(trace, outcome) == Session(fileName, totalSize, fileCount, init, parts, merge)
      ensures cancelReason == if outcome.Returned? && outcome.value.Err? then Some(FailReason) else None
    {
      var settled := InitChunk(init);
      if !settled {
        // `await initChunk()` never resumes
        outcome := Hung;
        return;
      }
      assert trace == [Initiate(fileName), Start];
      PlanChunks();
      var requestsList := chunkList;
      var failure := DrainRequests(requestsList, parts);
      if failure.Some? {
        outcome := Catch(failure.value);
        return;
      }
      var successRes := MergeChunk(merge);
      match successRes {
        case Ok(res) =>
          trace := trace + [Success(res)];
          outcome := Returned(Ok(res));
        case Err(e) =>
          outcome := Catch(e);
      }
    }
  }
}

/**
 * What one whole run of `uploadByPieces` promises its caller, proved about
 * `Protocol.Session` — and so, through `UploadSession.UploadByPieces`,
 * about the method: when the returned promise settles, which lifecycle
 * callbacks fire, whether the merge is requested, which part uploads reach
 * the backend, and what the progress reports say.
 */
module SessionTheorems {
  import opened Wrappers
  import opened ChunkPlan
  import opened Batching
  import opened Progress
  import opened Remote
  import opened Protocol
  import opened SessionProperties

  /** Every planned part's request resolves with a success code. */
  predicate AllPartsOk(size: nat, parts: nat -> PartReply)
  {
    forall k :: 0 <= k < ChunkCount(size) ==> PartResult(parts(k).reply).Ok?
  }

  /** The windows a session's upload loop sends, in order. */
  function SessionWindows(size: nat, fileCount: nat, parts: nat -> PartReply): seq<seq<Chunk>>
  {
    Joined(Planned(size), fileCount, parts)
  }

  /** The upload loop of a session ends without error iff every part succeeds. */
  lemma LoopSucceedsIff(uploadId: string, fileName: string, size: nat, fileCount: nat, parts: nat -> PartReply)
    ensures SessionLoop(uploadId, fileName, size, fileCount, parts).error.None? <==> AllPartsOk(size, parts)
  {
    var chunks := Planned(size);
    var s0 := State([Initiate(fileName), Start], chunks);
    assert SessionLoop(uploadId, fileName, size, fileCount, parts) == UploadPhase(uploadId, chunks, fileCount, parts, s0, size);
    UploadPhaseSucceedsIff(uploadId, chunks, fileCount, parts, s0, size);
    if AllPartsOk(size, parts) {
      forall k | 0 <= k < |chunks|
        ensures PartResult(parts(chunks[k].index).reply).Ok?
      {
        assert chunks[k].index == k;
      }
    } else {
      var k :| 0 <= k < ChunkCount(size) && !PartResult(parts(k).reply).Ok?;
      assert chunks[k].index == k;
    }
  }

  /**
   * The upload loop of a session only adds traffic after `onStart`, sends
   * the requests of the windows it sends, and fails with the error of the
   * last of them.
   */
  lemma LoopEvents(uploadId: string, fileName: string, size: nat, fileCount: nat, parts: nat -> PartReply)
    ensures Grows(SessionLoop(uploadId, fileName, size, fileCount, parts).state.events, [Initiate(fileName), Start])
    ensures Select(SessionLoop(uploadId, fileName, size, fileCount, parts).state.events, {UploadKind})
              == Issues(uploadId, Flatten(SessionWindows(size, fileCount, parts)))
    ensures var ws := SessionWindows(size, fileCount, parts);
            SessionLoop(uploadId, fileName, size, fileCount, parts).error
              == if ws == [] then None else JoinError(ws[|ws| - 1], parts)
  {
    var chunks := Planned(size);
    var s0 := State([Initiate(fileName), Start], chunks);
    UploadPhaseGrows(uploadId, chunks, fileCount, parts, s0, size);
    UploadPhaseIssues(uploadId, chunks, fileCount, parts, s0, size);
    UploadPhaseError(uploadId, chunks, fileCount, parts, s0, size);
    assert Select(s0.events, {UploadKind}) == [];
  }

  /**
   * With the identifier read from the response body as intended, the
   * returned promise never settles iff the initiate request fails; then
   * nothing but that request happens.
   */
  lemma SessionHangsIff(fileName: string, size: nat, fileCount: nat, init: Reply,
                        parts: nat -> PartReply, merge: Reply)
    ensures Session(fileName, size, fileCount, init, parts, merge).outcome.Hung? <==> InitUploadId(init).None?
    ensures InitUploadId(init).None? ==> Session(fileName, size, fileCount, init, parts, merge).events == [Initiate(fileName)]
  {
  }

  /** What happens after the upload loop: the merge, if the loop ended without error, and the callbacks. */
  function Settlement(uploadId: string, error: Option<Error>, merge: Reply): seq<Event>
  {
    match error
    case Some(e) => [Cancel(FailReason), Fail(e)]
    case None =>
      match Http(merge)
      case Ok(r) => [Merge(uploadId), Success(r)]
      case Err(e) => [Merge(uploadId), Cancel(FailReason), Fail(e)]
  }

  /**
   * A settled session is the initiate and `onStart`, then only part uploads
   * and progress reports within the cap, then its settlement.
   */
  lemma SessionShape(fileName: string, size: nat, fileCount: nat, init: Reply,
                     parts: nat -> PartReply, merge: Reply)
    requires InitUploadId(init).Some?
    ensures var id := InitUploadId(init).value;
            var phase := SessionLoop(id, fileName, size, fileCount, parts);
            Session(fileName, size, fileCount, init, parts, merge).events
              == phase.state.events + Settlement(id, phase.error, merge)
    ensures var phase := SessionLoop(InitUploadId(init).value, fileName, size, fileCount, parts);
            |phase.state.events| >= 2 && phase.state.events[..2] == [Initiate(fileName), Start] &&
            AllTraffic(phase.state.events[2..])
  {
    var phase := SessionLoop(InitUploadId(init).value, fileName, size, fileCount, parts);
    LoopEvents(InitUploadId(init).value, fileName, size, fileCount, parts);
    var h := phase.state.events;
    assert h[..2] == ([Initiate(fileName), Start] + h[2..])[..2];
  }

  lemma SelectCons(e: Event, t: seq<Event>, ks: set<Kind>)
    ensures Select([e] + t, ks) == (if KindOf(e) in ks then [e] else []) + Select(t, ks)
  {
    assert ([e] + t)[0] == e && ([e] + t)[1..] == t;
  }

  /** The events of a session, of kinds other than uploads and reports, in order. */
  lemma SelectSession(fileName: string, size: nat, fileCount: nat, init: Reply,
                      parts: nat -> PartReply, merge: Reply, ks: set<Kind>)
    requires UploadKind !in ks && ReportKind !in ks
    ensures Select(Session(fileName, size, fileCount, init, parts, merge).events, ks)
              == match InitUploadId(init)
                 case None => Select([Initiate(fileName)], ks)
                 case Some(id) =>
                   Select([Initiate(fileName), Start], ks)
                     + Select(Settlement(id, SessionLoop(id, fileName, size, fileCount, parts).error, merge), ks)
  {
    if InitUploadId(init).Some? {
      var id := InitUploadId(init).value;
      var phase := SessionLoop(id, fileName, size, fileCount, parts);
      SessionShape(fileName, size, fileCount, init, parts, merge);
      LoopEvents(id, fileName, size, fileCount, parts);
      GrowsSelect(phase.state.events, [Initiate(fileName), Start], ks);
      SelectAppend(phase.state.events, Settlement(id, phase.error, merge), ks);
    }
  }

  /** Selecting from the events before the upload loop. */
  lemma SelectOpening(fileName: string, ks: set<Kind>)
    ensures Select([Initiate(fileName)], ks) == if InitiateKind in ks then [Initiate(fileName)] else []
    ensures Select([Initiate(fileName), Start], ks)
              == (if InitiateKind in ks then [Initiate(fileName)] else []) + (if StartKind in ks then [Start] else [])
  {
    SelectCons(Initiate(fileName), [], ks);
    SelectCons(Start, [], ks);
    SelectCons(Initiate(fileName), [Start], ks);
  }

  /** Selecting from a settlement. */
  lemma SelectSettlement(uploadId: string, error: Option<Error>, merge: Reply, ks: set<Kind>)
    ensures var m := if MergeKind in ks then [Merge(uploadId)] else [];
            var c := if CancelKind in ks then [Cancel(FailReason)] else [];
            Select(Settlement(uploadId, error, merge), ks) == match error
              case Some(e) => c + (if FailKind in ks then [Fail(e)] else [])
              case None =>
                match Http(merge)
                case Ok(r) => m + (if SuccessKind in ks then [Success(r)] else [])
                case Err(e) => m + c + (if FailKind in ks then [Fail(e)] else [])
  {
    match error
    case Some(e) =>
      SelectCons(Fail(e), [], ks);
      SelectCons(Cancel(FailReason), [Fail(e)], ks);
    case None =>
      SelectMerged(uploadId, merge, ks);
  }

  lemma SelectMerged(uploadId: string, merge: Reply, ks: set<Kind>)
    ensures var m := if MergeKind in ks then [Merge(uploadId)] else [];
            var c := if CancelKind in ks then [Cancel(FailReason)] else [];
            Select(Settlement(uploadId, None, merge), ks) == match Http(merge)
              case Ok(r) => m + (if SuccessKind in ks then [Success(r)] else [])
              case Err(e) => m + c + (if FailKind in ks then [Fail(e)] else [])
  {
    match Http(merge)
    case Ok(r) =>
      SelectCons(Success(r), [], ks);
      SelectCons(Merge(uploadId), [Success(r)], ks);
    case Err(e) =>
      SelectCons(Fail(e), [], ks);
      SelectCons(Cancel(FailReason), [Fail(e)], ks);
      SelectCons(Merge(uploadId), [Cancel(FailReason), Fail(e)], ks);
  }

  /**
   * `onStart` fires once the upload identifier is known and then exactly
   * one of `onSuccess` (with the merge reply) and `onFail` (with the error
   * returned) fires, after it; nothing fires for a session that hangs.
   */
  lemma SessionCallbacks(fileName: string, size: nat, fileCount: nat, init: Reply,
                         parts: nat -> PartReply, merge: Reply)
    ensures var t := Session(fileName, size, fileCount, init, parts, merge);
            Select(t.events, Callbacks) == match t.outcome
              case Hung => []
              case Returned(Ok(r)) => [Start, Success(r)]
              case Returned(Err(e)) => [Start, Fail(e)]
  {
    SelectSession(fileName, size, fileCount, init, parts, merge, Callbacks);
    SelectOpening(fileName, Callbacks);
    if InitUploadId(init).Some? {
      var id := InitUploadId(init).value;
      var error := SessionLoop(id, fileName, size, fileCount, parts).error;
      SessionOutcome(fileName, size, fileCount, init, parts, merge);
      SelectSettlement(id, error, merge, Callbacks);
    }
  }

  /** How a settled session ends: with the upload loop's error, or as the merge does. */
  lemma SessionOutcome(fileName: string, size: nat, fileCount: nat, init: Reply,
                       parts: nat -> PartReply, merge: Reply)
    requires InitUploadId(init).Some?
    ensures var error := SessionLoop(InitUploadId(init).value, fileName, size, fileCount, parts).error;
            Session(fileName, size, fileCount, init, parts, merge).outcome
              == if error.Some? then Returned(Err(error.value)) else Returned(Http(merge))
  {
  }

  /** `cancel('上传失败')` is called once iff the session returns an error. */
  lemma SessionCancel(fileName: string, size: nat, fileCount: nat, init: Reply,
                      parts: nat -> PartReply, merge: Reply)
    ensures var t := Session(fileName, size, fileCount, init, parts, merge);
            Select(t.events, {CancelKind})
              == if t.outcome.Returned? && t.outcome.value.Err? then [Cancel(FailReason)] else []
  {
    SelectSession(fileName, size, fileCount, init, parts, merge, {CancelKind});
    SelectOpening(fileName, {CancelKind});
    if InitUploadId(init).Some? {
      var id := InitUploadId(init).value;
      SelectSettlement(id, SessionLoop(id, fileName, size, fileCount, parts).error, merge, {CancelKind});
    }
  }

  /** The merge is requested, once, iff the initiate settles and every part upload succeeds. */
  lemma SessionMerge(fileName: string, size: nat, fileCount: nat, init: Reply,
                     parts: nat -> PartReply, merge: Reply)
    ensures Select(Session(fileName, size, fileCount, init, parts, merge).events, {MergeKind})
              == if InitUploadId(init).Some? && AllPartsOk(size, parts) then [Merge(InitUploadId(init).value)] else []
  {
    SelectSession(fileName, size, fileCount, init, parts, merge, {MergeKind});
    SelectOpening(fileName, {MergeKind});
    if InitUploadId(init).Some? {
      var id := InitUploadId(init).value;
      LoopSucceedsIff(id, fileName, size, fileCount, parts);
      SelectSettlement(id, SessionLoop(id, fileName, size, fileCount, parts).error, merge, {MergeKind});
    }
  }

  /**
   * The session resolves with a value iff the initiate settles, every part
   * succeeds and the merge succeeds; the value is the merge's response.
   */
  lemma SessionSucceedsIff(fileName: string, size: nat, fileCount: nat, init: Reply,
                           parts: nat -> PartReply, merge: Reply)
    ensures var o := Session(fileName, size, fileCount, init, parts, merge).outcome;
            o.Returned? && o.value.Ok? <==> InitUploadId(init).Some? && AllPartsOk(size, parts) && Http(merge).Ok?
    ensures var o := Session(fileName, size, fileCount, init, parts, merge).outcome;
            o.Returned? && o.value.Ok? ==> o.value.value == merge.response
  {
    if InitUploadId(init).Some? {
      LoopSucceedsIff(InitUploadId(init).value, fileName, size, fileCount, parts);
    }
  }

  /** The part uploads a session sends are those of the windows its loop sends, in order. */
  lemma SessionUploads(fileName: string, size: nat, fileCount: nat, init: Reply,
                       parts: nat -> PartReply, merge: Reply)
    ensures Select(Session(fileName, size, fileCount, init, parts, merge).events, {UploadKind})
              == match InitUploadId(init)
                 case None => []
                 case Some(id) => Issues(id, Flatten(SessionWindows(size, fileCount, parts)))
  {
    var ks := {UploadKind};
    SelectOpening(fileName, ks);
    if InitUploadId(init).Some? {
      var id := InitUploadId(init).value;
      var phase := SessionLoop(id, fileName, size, fileCount, parts);
      var ups := Issues(id, Flatten(SessionWindows(size, fileCount, parts)));
      SessionShape(fileName, size, fileCount, init, parts, merge);
      LoopEvents(id, fileName, size, fileCount, parts);
      SelectAppend(phase.state.events, Settlement(id, phase.error, merge), ks);
      SelectSettlement(id, phase.error, merge, ks);
      assert ups + [] == ups;
    }
  }

  /** When every part succeeds, every planned chunk is uploaded once, in order. */
  lemma SessionUploadsAllParts(fileName: string, size: nat, fileCount: nat, init: Reply,
                               parts: nat -> PartReply, merge: Reply)
    requires InitUploadId(init).Some? && AllPartsOk(size, parts)
    ensures Select(Session(fileName, size, fileCount, init, parts, merge).events, {UploadKind})
              == Issues(InitUploadId(init).value, Planned(size))
  {
    var id := InitUploadId(init).value;
    var chunks := Planned(size);
    SessionUploads(fileName, size, fileCount, init, parts, merge);
    LoopEvents(id, fileName, size, fileCount, parts);
    LoopSucceedsIff(id, fileName, size, fileCount, parts);
    JoinedAll(chunks, fileCount, parts);
    assert SessionWindows(size, fileCount, parts) == Batches(chunks, fileCount);
    FlattenBatches(chunks, fileCount);
  }

  /** The uploads of all planned chunks are parts 1 to `chunkCount`, in order. */
  lemma PlannedUploads(uploadId: string, size: nat)
    ensures |Issues(uploadId, Planned(size))| == ChunkCount(size)
    ensures forall k :: 0 <= k < ChunkCount(size) ==> Issues(uploadId, Planned(size))[k] == Upload(uploadId, k + 1)
  {
    IssuesAreUploads(uploadId, Planned(size));
  }

  /**
   * When some part fails, the loop has sent a non-empty run of leading
   * windows of `chunkList`; every window but the last joined, and the
   * session returns the error of the last one's join.
   */
  lemma SessionFailsAtWindow(fileName: string, size: nat, fileCount: nat, init: Reply,
                             parts: nat -> PartReply, merge: Reply)
    requires InitUploadId(init).Some? && !AllPartsOk(size, parts)
    ensures var ws := SessionWindows(size, fileCount, parts);
            ws != [] && |ws| <= |Batches(Planned(size), fileCount)| &&
            ws == Batches(Planned(size), fileCount)[..|ws|] &&
            (forall i :: 0 <= i < |ws| - 1 ==> JoinError(ws[i], parts).None?) &&
            JoinError(ws[|ws| - 1], parts).Some? &&
            Session(fileName, size, fileCount, init, parts, merge).outcome
              == Returned(Err(JoinError(ws[|ws| - 1], parts).value))
  {
    var id := InitUploadId(init).value;
    var chunks := Planned(size);
    LoopEvents(id, fileName, size, fileCount, parts);
    LoopSucceedsIff(id, fileName, size, fileCount, parts);
    JoinedAreBatches(chunks, fileCount, parts);
    JoinedBeforeLastSucceed(chunks, fileCount, parts);
  }

  /** Every progress report of `t` carries a total within the cap. */
  predicate ReportsCapped(t: seq<Event>)
  {
    forall k :: 0 <= k < |t| && t[k].Report? ==> 0.0 <= t[k].percent <= ProgressCap
  }

  /** Once a session starts to settle, nothing but settling events follows. */
  predicate SettlesLast(t: seq<Event>)
  {
    forall i, j :: 0 <= i < j < |t| && KindOf(t[i]) in Settling ==> KindOf(t[j]) in Settling
  }

  /**
   * Every progress report stays within 0 and 99.9 percent, and no request
   * is sent and no progress reported once the merge, the cancellation or a
   * final callback has happened.
   */
  lemma SessionOrder(fileName: string, size: nat, fileCount: nat, init: Reply,
                     parts: nat -> PartReply, merge: Reply)
    ensures ReportsCapped(Session(fileName, size, fileCount, init, parts, merge).events)
    ensures SettlesLast(Session(fileName, size, fileCount, init, parts, merge).events)
  {
    if InitUploadId(init).Some? {
      var id := InitUploadId(init).value;
      var phase := SessionLoop(id, fileName, size, fileCount, parts);
      SessionShape(fileName, size, fileCount, init, parts, merge);
      SettlementSettles(id, phase.error, merge);
      OrderOfParts(fileName, phase.state.events, Settlement(id, phase.error, merge));
    }
  }

  lemma SettlementSettles(uploadId: string, error: Option<Error>, merge: Reply)
    ensures var z := Settlement(uploadId, error, merge);
            forall k :: 0 <= k < |z| ==> KindOf(z[k]) in Settling
  {
  }

  /** The opening, then traffic, then settling events: reports are capped and settling comes last. */
  lemma OrderOfParts(fileName: string, h: seq<Event>, z: seq<Event>)
    requires |h| >= 2 && h[..2] == [Initiate(fileName), Start] && AllTraffic(h[2..])
    requires forall k :: 0 <= k < |z| ==> KindOf(z[k]) in Settling
    ensures ReportsCapped(h + z) && SettlesLast(h + z)
  {
    var t := h + z;
    assert forall k :: 0 <= k < |t| ==> t[k] == if k < |h| then h[k] else z[k - |h|];
    assert forall k :: 2 <= k < |h| ==> h[k] == h[2..][k - 2] && Traffic(h[k]);
    assert h[0] == h[..2][0] && h[1] == h[..2][1];
  }

  /**
   * A zero-byte file has no chunks: after `onStart` the merge is requested
   * at once, and the session ends as the merge does.
   */
  lemma EmptyFileSession(fileName: string, fileCount: nat, init: Reply, parts: nat -> PartReply, merge: Reply)
    requires InitUploadId(init).Some?
    ensures var id := InitUploadId(init).value;
            Session(fileName, 0, fileCount, init, parts, merge).events
              == [Initiate(fileName), Start] + Settlement(id, None, merge)
    ensures Session(fileName, 0, fileCount, init, parts, merge).outcome == Returned(Http(merge))
  {
    assert Planned(0) == [];
  }

  /** A 25 MiB file whose parts all succeed is sent as parts 1, 2 and 3, in that order. */
  lemma TwentyFiveMiBSession(fileName: string, fileCount: nat, init: Reply, parts: nat -> PartReply, merge: Reply)
    requires InitUploadId(init).Some? && AllPartsOk(25 * 1024 * 1024, parts)
    ensures var id := InitUploadId(init).value;
            Select(Session(fileName, 25 * 1024 * 1024, fileCount, init, parts, merge).events, {UploadKind})
              == [Upload(id, 1), Upload(id, 2), Upload(id, 3)]
  {
    var id := InitUploadId(init).value;
    TwentyFiveMiBFile();
    SessionUploadsAllParts(fileName, 25 * 1024 * 1024, fileCount, init, parts, merge);
    PlannedUploads(id, 25 * 1024 * 1024);
  }

  /**
   * The session as written: `initChunk` destructures `content` from the
   * response object and throws before `resolve`, so whatever the backend
   * answers, the initiate request is all that happens and the returned
   * promise never settles.
   */
  lemma SessionAsWrittenHangs(fileName: string, size: nat, fileCount: nat, init: Reply,
                              parts: nat -> PartReply, merge: Reply)
    ensures SessionAsWritten(fileName, size, fileCount, init, parts, merge) == Transcript([Initiate(fileName)], Hung)
    ensures init.Answered? && init.response.data.code == SuccessCode ==>
              Session(fileName, size, fileCount, init, parts, merge).outcome != Hung
  {
    if init.Answered? && init.response.data.code == SuccessCode {
      InitiateAsWrittenNeverSettles(init);
    }
  }
}

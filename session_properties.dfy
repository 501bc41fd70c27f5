/**
 * What `uploadByPieces` promises, proved about `Protocol.Session`: when
 * the returned promise settles, which callbacks fire and in which order,
 * which requests reach the backend, and what the progress reports say.
 */
module SessionProperties {
  import opened Wrappers
  import opened ChunkPlan
  import opened Batching
  import opened Progress
  import opened Remote
  import opened Protocol

  /** The kinds of event, one per constructor of `Event`. */
  datatype Kind = InitiateKind | StartKind | UploadKind | ReportKind | MergeKind | CancelKind | SuccessKind | FailKind

  function KindOf(e: Event): Kind
  {
    match e
    case Initiate(_) => InitiateKind
    case Start => StartKind
    case Upload(_, _) => UploadKind
    case Report(_, _, _) => ReportKind
    case Merge(_) => MergeKind
    case Cancel(_) => CancelKind
    case Success(_) => SuccessKind
    case Fail(_) => FailKind
  }

  /** The events of `t` whose kind is in `ks`, in order. */
  function Select(t: seq<Event>, ks: set<Kind>): (r: seq<Event>)
    ensures |r| <= |t|
    decreases |t|
  {
    if t == [] then []
    else (if KindOf(t[0]) in ks then [t[0]] else []) + Select(t[1..], ks)
  }

  /** The lifecycle callbacks the caller passes in: `onStart`, `onSuccess` and `onFail`. */
  const Callbacks: set<Kind> := {StartKind, SuccessKind, FailKind}

  /** The events that end a session: the merge request, the cancellation and the final callbacks. */
  const Settling: set<Kind> := {MergeKind, CancelKind, SuccessKind, FailKind}

  lemma {:induction false} SelectAppend(a: seq<Event>, b: seq<Event>, ks: set<Kind>)
    ensures Select(a + b, ks) == Select(a, ks) + Select(b, ks)
    decreases |a|
  {
    if a == [] {
      assert a + b == b;
    } else {
      assert (a + b)[0] == a[0] && (a + b)[1..] == a[1..] + b;
      SelectAppend(a[1..], b, ks);
      var h := if KindOf(a[0]) in ks then [a[0]] else [];
      assert Select(a + b, ks) == h + Select(a[1..] + b, ks);
      assert Select(a, ks) == h + Select(a[1..], ks);
    }
  }

  /** What the upload loop emits: requests, and progress reports whose total is within the cap. */
  predicate Traffic(e: Event)
  {
    e.Upload? || (e.Report? && 0.0 <= e.percent <= ProgressCap)
  }

  predicate AllTraffic(t: seq<Event>)
  {
    forall k :: 0 <= k < |t| ==> Traffic(t[k])
  }

  /** `r` is `s` followed by upload-loop traffic only. */
  predicate Grows(r: seq<Event>, s: seq<Event>)
  {
    |s| <= |r| && r == s + r[|s|..] && AllTraffic(r[|s|..])
  }

  lemma GrowsByTraffic(s: seq<Event>, t: seq<Event>)
    requires AllTraffic(t)
    ensures Grows(s + t, s)
  {
    assert (s + t)[|s|..] == t;
  }

  lemma GrowsTransitive(a: seq<Event>, b: seq<Event>, c: seq<Event>)
    requires Grows(b, a) && Grows(c, b)
    ensures Grows(c, a)
  {
    var t, u := b[|a|..], c[|b|..];
    assert c == a + (t + u);
    assert c[|a|..] == t + u;
    assert forall k :: 0 <= k < |t + u| ==> (t + u)[k] == if k < |t| then t[k] else u[k - |t|];
  }

  /** Traffic holds no event of the kinds that settle a session or call the lifecycle callbacks. */
  lemma {:induction false} SelectTraffic(t: seq<Event>, ks: set<Kind>)
    requires AllTraffic(t) && UploadKind !in ks && ReportKind !in ks
    ensures Select(t, ks) == []
    decreases |t|
  {
    if t != [] {
      assert Traffic(t[0]);
      assert AllTraffic(t[1..]) by {
        assert forall k :: 0 <= k < |t[1..]| ==> t[1..][k] == t[k + 1];
      }
      SelectTraffic(t[1..], ks);
    }
  }

  /** Growing by traffic leaves every selection without uploads and reports unchanged. */
  lemma GrowsSelect(r: seq<Event>, s: seq<Event>, ks: set<Kind>)
    requires Grows(r, s) && UploadKind !in ks && ReportKind !in ks
    ensures Select(r, ks) == Select(s, ks)
  {
    SelectAppend(s, r[|s|..], ks);
    SelectTraffic(r[|s|..], ks);
  }

  /** The requests of a window are uploads of its part numbers. */
  lemma {:induction false} IssuesAreUploads(uploadId: string, batch: seq<Chunk>)
    ensures |Issues(uploadId, batch)| == |batch|
    ensures forall k :: 0 <= k < |batch| ==> Issues(uploadId, batch)[k] == Upload(uploadId, PartNumber(batch[k].index))
    decreases |batch|
  {
    if batch != [] {
      IssuesAreUploads(uploadId, batch[1..]);
    }
  }

  lemma IssuesTraffic(uploadId: string, batch: seq<Chunk>)
    ensures AllTraffic(Issues(uploadId, batch))
    ensures Select(Issues(uploadId, batch), {UploadKind}) == Issues(uploadId, batch)
  {
    IssuesAreUploads(uploadId, batch);
    IssuesSelect(uploadId, batch);
  }

  lemma {:induction false} IssuesSelect(uploadId: string, batch: seq<Chunk>)
    ensures Select(Issues(uploadId, batch), {UploadKind}) == Issues(uploadId, batch)
    decreases |batch|
  {
    if batch != [] {
      var t := Issues(uploadId, batch);
      assert t[1..] == Issues(uploadId, batch[1..]);
      IssuesSelect(uploadId, batch[1..]);
    }
  }

  /** `Issues` distributes over a split of the window. */
  lemma {:induction false} IssuesAppend(uploadId: string, a: seq<Chunk>, b: seq<Chunk>)
    ensures Issues(uploadId, a + b) == Issues(uploadId, a) + Issues(uploadId, b)
    decreases |a|
  {
    if a == [] {
      assert a + b == b;
    } else {
      assert (a + b)[1..] == a[1..] + b;
      IssuesAppend(uploadId, a[1..], b);
    }
  }

  /**
   * The progress callbacks of one request only append reports, each with
   * a total within the cap, and change no slot but their own.
   */
  lemma {:induction false} ChunkProgressGrows(index: nat, values: seq<nat>, s: State, size: nat)
    requires index < |s.chunks| && size > 0
    ensures Grows(ChunkProgress(index, values, s, size).events, s.events)
    ensures Select(ChunkProgress(index, values, s, size).events, {UploadKind}) == Select(s.events, {UploadKind})
    ensures forall j :: 0 <= j < |s.chunks| && j != index ==> ChunkProgress(index, values, s, size).chunks[j] == s.chunks[j]
    decreases |values|
  {
    var r := ChunkProgress(index, values, s, size);
    if values == [] {
      assert s.events[|s.events|..] == [];
      assert s.events + [] == s.events;
    } else {
      var chunks' := s.chunks[index := s.chunks[index].(loaded := values[0])];
      var report := Report(index, values[0], TotalProgress(chunks', size));
      var s' := State(s.events + [report], chunks');
      GrowsByTraffic(s.events, [report]);
      ChunkProgressGrows(index, values[1..], s', size);
      GrowsTransitive(s.events, s'.events, r.events);
      SelectAppend(s.events, [report], {UploadKind});
    }
  }

  /** The progress callbacks of one window only append reports, and change only the slots of its requests. */
  lemma {:induction false} BatchProgressGrows(batch: seq<Chunk>, parts: nat -> PartReply, s: State, size: nat)
    requires Indexed(batch, |s.chunks|) && (|s.chunks| > 0 ==> size > 0)
    ensures Grows(BatchProgress(batch, parts, s, size).events, s.events)
    ensures Select(BatchProgress(batch, parts, s, size).events, {UploadKind}) == Select(s.events, {UploadKind})
    ensures forall j :: 0 <= j < |s.chunks| && (forall k :: 0 <= k < |batch| ==> batch[k].index != j) ==>
              BatchProgress(batch, parts, s, size).chunks[j] == s.chunks[j]
    decreases |batch|
  {
    var r := BatchProgress(batch, parts, s, size);
    if batch == [] {
      assert s.events[|s.events|..] == [];
      assert s.events + [] == s.events;
    } else {
      var first := ChunkProgress(batch[0].index, parts(batch[0].index).progress, s, size);
      ChunkProgressGrows(batch[0].index, parts(batch[0].index).progress, s, size);
      BatchProgressGrows(batch[1..], parts, first, size);
      GrowsTransitive(s.events, first.events, r.events);
    }
  }

  /** Every request of `batch` resolves with a success code. */
  predicate PartsOk(batch: seq<Chunk>, parts: nat -> PartReply)
  {
    forall k :: 0 <= k < |batch| ==> PartResult(parts(batch[k].index).reply).Ok?
  }

  /** A run of requests succeeds iff both of its halves do. */
  lemma PartsOkSplit(xs: seq<Chunk>, k: nat, parts: nat -> PartReply)
    requires k <= |xs|
    ensures PartsOk(xs, parts) <==> PartsOk(xs[..k], parts) && PartsOk(xs[k..], parts)
  {
    assert forall j :: 0 <= j < |xs| ==> xs[j] == if j < k then xs[..k][j] else xs[k..][j - k];
  }

  /** `Promise.all` over a window succeeds iff every one of its requests succeeds. */
  lemma {:induction false} JoinSucceedsIff(batch: seq<Chunk>, parts: nat -> PartReply)
    ensures JoinError(batch, parts).None? <==> PartsOk(batch, parts)
    decreases |batch|
  {
    if batch != [] {
      JoinSucceedsIff(batch[1..], parts);
      assert forall k :: 1 <= k < |batch| ==> batch[1..][k - 1] == batch[k];
    }
  }

  /** The error of a failed join is the error of one of its requests. */
  lemma {:induction false} JoinErrorOfMember(batch: seq<Chunk>, parts: nat -> PartReply)
    requires JoinError(batch, parts).Some?
    ensures exists k :: 0 <= k < |batch| && PartResult(parts(batch[k].index).reply) == Err(JoinError(batch, parts).value)
    decreases |batch|
  {
    if PartResult(parts(batch[0].index).reply).Ok? {
      JoinErrorOfMember(batch[1..], parts);
      var k :| 0 <= k < |batch[1..]| && PartResult(parts(batch[1..][k].index).reply) == Err(JoinError(batch, parts).value);
      assert batch[1..][k] == batch[k + 1];
    }
  }

  /**
   * The windows the upload loop over `xs` sends: each window in turn, up
   * to and including the first whose join fails.
   */
  function Joined(xs: seq<Chunk>, fileCount: nat, parts: nat -> PartReply): (ws: seq<seq<Chunk>>)
    ensures ws == [] <==> xs == []
    decreases |xs|
  {
    if xs == [] then []
    else
      var window := xs[..SpliceLength(fileCount, |xs|)];
      [window] + if JoinError(window, parts).Some? then [] else Joined(xs[|window|..], fileCount, parts)
  }

  /** The windows sent are the first windows of `Batches`, in order. */
  lemma {:induction false} JoinedAreBatches(xs: seq<Chunk>, fileCount: nat, parts: nat -> PartReply)
    ensures |Joined(xs, fileCount, parts)| <= |Batches(xs, fileCount)|
    ensures Joined(xs, fileCount, parts) == Batches(xs, fileCount)[..|Joined(xs, fileCount, parts)|]
    decreases |xs|
  {
    if xs != [] {
      var k := SpliceLength(fileCount, |xs|);
      var w, rest := xs[..k], xs[k..];
      var bs := Batches(xs, fileCount);
      assert bs == [w] + Batches(rest, fileCount);
      if JoinError(w, parts).Some? {
        assert bs[..1] == [w];
      } else {
        JoinedAreBatches(rest, fileCount, parts);
        var n := |Joined(rest, fileCount, parts)|;
        assert bs[..n + 1] == [w] + Batches(rest, fileCount)[..n];
      }
    }
  }

  /** Every window before the last one sent joined without error. */
  lemma {:induction false} JoinedBeforeLastSucceed(xs: seq<Chunk>, fileCount: nat, parts: nat -> PartReply)
    ensures forall i :: 0 <= i < |Joined(xs, fileCount, parts)| - 1 ==>
              JoinError(Joined(xs, fileCount, parts)[i], parts).None?
    decreases |xs|
  {
    if xs != [] {
      var k := SpliceLength(fileCount, |xs|);
      var w, rest := xs[..k], xs[k..];
      if JoinError(w, parts).None? {
        JoinedBeforeLastSucceed(rest, fileCount, parts);
        var ws, ws' := Joined(xs, fileCount, parts), Joined(rest, fileCount, parts);
        assert ws == [w] + ws';
        forall i | 0 <= i < |ws| - 1
          ensures JoinError(ws[i], parts).None?
        {
          if i > 0 {
            assert ws[i] == ws'[i - 1];
            assert 0 <= i - 1 < |ws'| - 1;
            assert JoinError(ws'[i - 1], parts).None?;
          } else {
            assert ws[0] == w;
          }
        }
      }
    }
  }

  /** When the last window sent joined, every window was sent. */
  lemma {:induction false} JoinedAll(xs: seq<Chunk>, fileCount: nat, parts: nat -> PartReply)
    requires var ws := Joined(xs, fileCount, parts);
             ws == [] || JoinError(ws[|ws| - 1], parts).None?
    ensures Joined(xs, fileCount, parts) == Batches(xs, fileCount)
    decreases |xs|
  {
    if xs != [] {
      var k := SpliceLength(fileCount, |xs|);
      var w, rest := xs[..k], xs[k..];
      var ws, ws' := Joined(xs, fileCount, parts), Joined(rest, fileCount, parts);
      if JoinError(w, parts).Some? {
        assert false;
      }
      assert ws == [w] + ws';
      if ws' != [] {
        assert ws[|ws| - 1] == ws'[|ws'| - 1];
        JoinedAll(rest, fileCount, parts);
      }
    }
  }

  /** The upload loop emits nothing but traffic. */
  lemma {:induction false} UploadPhaseGrows(uploadId: string, xs: seq<Chunk>, fileCount: nat,
                                            parts: nat -> PartReply, s: State, size: nat)
    requires Indexed(xs, |s.chunks|) && (|s.chunks| > 0 ==> size > 0)
    ensures Grows(UploadPhase(uploadId, xs, fileCount, parts, s, size).state.events, s.events)
    decreases |xs|
  {
    var phase := UploadPhase(uploadId, xs, fileCount, parts, s, size);
    if xs == [] {
      assert s.events[|s.events|..] == [];
      assert s.events + [] == s.events;
    } else {
      var k := SpliceLength(fileCount, |xs|);
      var requests := xs[..k];
      var sent := State(s.events + Issues(uploadId, requests), s.chunks);
      var progress := BatchProgress(requests, parts, sent, size);
      IssuesTraffic(uploadId, requests);
      GrowsByTraffic(s.events, Issues(uploadId, requests));
      BatchProgressGrows(requests, parts, sent, size);
      GrowsTransitive(s.events, sent.events, progress.events);
      if JoinError(requests, parts).None? {
        UploadPhaseGrows(uploadId, xs[k..], fileCount, parts, progress, size);
        GrowsTransitive(s.events, progress.events, phase.state.events);
      }
    }
  }

  /**
   * The upload loop fails iff the last window sent failed to join, and
   * then with that join's error.
   */
  lemma {:induction false} UploadPhaseError(uploadId: string, xs: seq<Chunk>, fileCount: nat,
                                            parts: nat -> PartReply, s: State, size: nat)
    requires Indexed(xs, |s.chunks|) && (|s.chunks| > 0 ==> size > 0)
    ensures var ws := Joined(xs, fileCount, parts);
            UploadPhase(uploadId, xs, fileCount, parts, s, size).error
              == if ws == [] then None else JoinError(ws[|ws| - 1], parts)
    decreases |xs|
  {
    if xs != [] {
      var k := SpliceLength(fileCount, |xs|);
      var requests, rest := xs[..k], xs[k..];
      var progress := BatchProgress(requests, parts, State(s.events + Issues(uploadId, requests), s.chunks), size);
      if JoinError(requests, parts).None? {
        UploadPhaseError(uploadId, rest, fileCount, parts, progress, size);
        var ws, ws' := Joined(xs, fileCount, parts), Joined(rest, fileCount, parts);
        assert ws == [requests] + ws';
        if ws' != [] {
          assert ws[|ws| - 1] == ws'[|ws'| - 1];
        }
      }
    }
  }

  /** One window adds exactly its own requests to the uploads sent. */
  lemma WindowIssues(uploadId: string, requests: seq<Chunk>, parts: nat -> PartReply, s: State, size: nat)
    requires Indexed(requests, |s.chunks|) && (|s.chunks| > 0 ==> size > 0)
    ensures var sent := State(s.events + Issues(uploadId, requests), s.chunks);
            Select(BatchProgress(requests, parts, sent, size).events, {UploadKind})
              == Select(s.events, {UploadKind}) + Issues(uploadId, requests)
  {
    var sent := State(s.events + Issues(uploadId, requests), s.chunks);
    IssuesTraffic(uploadId, requests);
    BatchProgressGrows(requests, parts, sent, size);
    SelectAppend(s.events, Issues(uploadId, requests), {UploadKind});
  }

  /** The upload loop sends exactly the requests of the windows it sends, in order. */
  lemma {:induction false} UploadPhaseIssues(uploadId: string, xs: seq<Chunk>, fileCount: nat,
                                             parts: nat -> PartReply, s: State, size: nat)
    requires Indexed(xs, |s.chunks|) && (|s.chunks| > 0 ==> size > 0)
    ensures Select(UploadPhase(uploadId, xs, fileCount, parts, s, size).state.events, {UploadKind})
              == Select(s.events, {UploadKind}) + Issues(uploadId, Flatten(Joined(xs, fileCount, parts)))
    decreases |xs|
  {
    if xs == [] {
      assert Select(s.events, {UploadKind}) + [] == Select(s.events, {UploadKind});
    } else {
      var k := SpliceLength(fileCount, |xs|);
      var requests := xs[..k];
      var progress := BatchProgress(requests, parts, State(s.events + Issues(uploadId, requests), s.chunks), size);
      if JoinError(requests, parts).None? {
        UploadPhaseIssues(uploadId, xs[k..], fileCount, parts, progress, size);
      }
      IssuesStep(uploadId, xs, fileCount, parts, s, size);
    }
  }

  /**
   * One turn of the upload loop adds its window's requests to the uploads;
   * when the loop goes on, the rest of the uploads are those of the turns after.
   */
  lemma IssuesStep(uploadId: string, xs: seq<Chunk>, fileCount: nat, parts: nat -> PartReply, s: State, size: nat)
    requires Indexed(xs, |s.chunks|) && (|s.chunks| > 0 ==> size > 0) && xs != []
    requires var requests := xs[..SpliceLength(fileCount, |xs|)];
             var progress := BatchProgress(requests, parts, State(s.events + Issues(uploadId, requests), s.chunks), size);
             JoinError(requests, parts).None? ==>
               Select(UploadPhase(uploadId, xs[|requests|..], fileCount, parts, progress, size).state.events, {UploadKind})
                 == Select(progress.events, {UploadKind}) + Issues(uploadId, Flatten(Joined(xs[|requests|..], fileCount, parts)))
    ensures Select(UploadPhase(uploadId, xs, fileCount, parts, s, size).state.events, {UploadKind})
              == Select(s.events, {UploadKind}) + Issues(uploadId, Flatten(Joined(xs, fileCount, parts)))
  {
    var k := SpliceLength(fileCount, |xs|);
    var requests := xs[..k];
    var progress := BatchProgress(requests, parts, State(s.events + Issues(uploadId, requests), s.chunks), size);
    var next := UploadPhase(uploadId, xs[k..], fileCount, parts, progress, size);
    var stop := JoinError(requests, parts).Some?;
    UploadPhaseStep(uploadId, xs, fileCount, parts, s, size);
    JoinedFlattenStep(xs, fileCount, parts);
    WindowIssues(uploadId, requests, parts, s, size);
    IssuesAppend(uploadId, requests, Flatten(Joined(xs[k..], fileCount, parts)));
    CombineIssues(uploadId, stop,
                  UploadPhase(uploadId, xs, fileCount, parts, s, size).state.events, progress.events, next.state.events,
                  Select(s.events, {UploadKind}), requests,
                  Flatten(Joined(xs, fileCount, parts)), Flatten(Joined(xs[k..], fileCount, parts)));
  }

  /** The bookkeeping of `IssuesStep`, over plain values. */
  lemma CombineIssues(uploadId: string, stop: bool, all: seq<Event>, window: seq<Event>, later: seq<Event>,
                      before: seq<Event>, requests: seq<Chunk>, sentAll: seq<Chunk>, sentLater: seq<Chunk>)
    requires all == if stop then window else later
    requires sentAll == if stop then requests + [] else requests + sentLater
    requires Select(window, {UploadKind}) == before + Issues(uploadId, requests)
    requires !stop ==> Select(later, {UploadKind}) == Select(window, {UploadKind}) + Issues(uploadId, sentLater)
    requires Issues(uploadId, requests + sentLater) == Issues(uploadId, requests) + Issues(uploadId, sentLater)
    ensures Select(all, {UploadKind}) == before + Issues(uploadId, sentAll)
  {
    if stop {
      assert requests + [] == requests;
    } else {
      var a, b, c := before, Issues(uploadId, requests), Issues(uploadId, sentLater);
      ConcatAssociative(a, b, c);
    }
  }

  lemma ConcatAssociative(a: seq<Event>, b: seq<Event>, c: seq<Event>)
    ensures (a + b) + c == a + (b + c)
  {
  }

  /** One turn of the upload loop. */
  lemma UploadPhaseStep(uploadId: string, xs: seq<Chunk>, fileCount: nat, parts: nat -> PartReply, s: State, size: nat)
    requires Indexed(xs, |s.chunks|) && (|s.chunks| > 0 ==> size > 0) && xs != []
    ensures var requests := xs[..SpliceLength(fileCount, |xs|)];
            var progress := BatchProgress(requests, parts, State(s.events + Issues(uploadId, requests), s.chunks), size);
            UploadPhase(uploadId, xs, fileCount, parts, s, size)
              == if JoinError(requests, parts).Some? then Phase(progress, JoinError(requests, parts))
                 else UploadPhase(uploadId, xs[|requests|..], fileCount, parts, progress, size)
  {
  }

  /** One step of `Joined`, with the windows put back together. */
  lemma JoinedFlattenStep(xs: seq<Chunk>, fileCount: nat, parts: nat -> PartReply)
    requires xs != []
    ensures var w := xs[..SpliceLength(fileCount, |xs|)];
            Flatten(Joined(xs, fileCount, parts))
              == if JoinError(w, parts).Some? then w + [] else w + Flatten(Joined(xs[|w|..], fileCount, parts))
  {
    var w := xs[..SpliceLength(fileCount, |xs|)];
    var ws := Joined(xs, fileCount, parts);
    assert ws[0] == w;
    if JoinError(w, parts).Some? {
      assert ws == [w] && ws[1..] == [];
    } else {
      assert ws[1..] == Joined(xs[|w|..], fileCount, parts);
    }
  }

  /** The upload loop over planned chunks fails iff some part upload fails. */
  lemma {:induction false} UploadPhaseSucceedsIff(uploadId: string, xs: seq<Chunk>, fileCount: nat,
                               parts: nat -> PartReply, s: State, size: nat)
    requires Indexed(xs, |s.chunks|) && (|s.chunks| > 0 ==> size > 0)
    ensures UploadPhase(uploadId, xs, fileCount, parts, s, size).error.None? <==> PartsOk(xs, parts)
    decreases |xs|
  {
    if xs != [] {
      var k := SpliceLength(fileCount, |xs|);
      var requests := xs[..k];
      var progress := BatchProgress(requests, parts, State(s.events + Issues(uploadId, requests), s.chunks), size);
      UploadPhaseStep(uploadId, xs, fileCount, parts, s, size);
      JoinSucceedsIff(requests, parts);
      PartsOkSplit(xs, k, parts);
      if JoinError(requests, parts).None? {
        UploadPhaseSucceedsIff(uploadId, xs[k..], fileCount, parts, progress, size);
      }
    }
  }
}

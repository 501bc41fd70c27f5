/**
 * Progress never goes backwards within a session. axios reports growing
 * `e.loaded` values for one request; each request writes only its own
 * `chunkList` slot, which starts at 0; so every report of a session is at
 * least the one before it.
 */
module ProgressOrder {
  import opened Wrappers
  import opened ChunkPlan
  import opened Batching
  import opened Progress
  import opened Remote
  import opened Protocol
  import opened SessionProperties
  import opened SessionTheorems

  /** `e.loaded` never decreases over one request's callbacks. */
  predicate Growing(values: seq<nat>)
  {
    forall i, j :: 0 <= i < j < |values| ==> values[i] <= values[j]
  }

  /** axios's promise about every part upload: its `e.loaded` values grow. */
  ghost predicate GrowingProgress(parts: nat -> PartReply)
  {
    forall k: nat :: Growing(parts(k).progress)
  }

  /** The reports among `events` are in non-decreasing order of their total. */
  predicate ReportsSorted(events: seq<Event>)
  {
    forall i, j :: 0 <= i < j < |events| && events[i].Report? && events[j].Report? ==>
      events[i].percent <= events[j].percent
  }

  /** No report among `events` has a total above `p`. */
  predicate ReportsAtMost(events: seq<Event>, p: real)
  {
    forall i :: 0 <= i < |events| && events[i].Report? ==> events[i].percent <= p
  }

  /** The reports so far are sorted and none is above the total of the current `chunkList`. */
  predicate Ordered(s: State, size: nat)
    requires size > 0
  {
    ReportsSorted(s.events) && ReportsAtMost(s.events, TotalProgress(s.chunks, size))
  }

  /** No event of `events` is a report. */
  predicate Quiet(events: seq<Event>)
  {
    forall i :: 0 <= i < |events| ==> !events[i].Report?
  }

  /** Each request of `xs` addresses its own slot, and that slot is still 0. */
  predicate Untouched(xs: seq<Chunk>, chunks: seq<Chunk>)
  {
    (forall k :: 0 <= k < |xs| ==> xs[k].index < |chunks| && chunks[xs[k].index].loaded == 0) &&
    (forall i, j :: 0 <= i < j < |xs| ==> xs[i].index != xs[j].index)
  }

  /** Appending a report no lower than the current bound keeps the reports sorted. */
  lemma AppendReport(events: seq<Event>, p: real, e: Event)
    requires ReportsSorted(events) && ReportsAtMost(events, p)
    requires e.Report? && p <= e.percent
    ensures ReportsSorted(events + [e]) && ReportsAtMost(events + [e], e.percent)
  {
    var t := events + [e];
    assert forall i :: 0 <= i < |events| ==> t[i] == events[i];
  }

  /** Appending events that are not reports changes nothing about the reports. */
  lemma AppendQuiet(events: seq<Event>, p: real, extra: seq<Event>)
    requires ReportsSorted(events) && ReportsAtMost(events, p) && Quiet(extra)
    ensures ReportsSorted(events + extra) && ReportsAtMost(events + extra, p)
  {
    var t := events + extra;
    assert forall i :: 0 <= i < |t| ==> t[i] == if i < |events| then events[i] else extra[i - |events|];
  }

  /** The requests of a window are not reports. */
  lemma {:induction false} IssuesQuiet(uploadId: string, batch: seq<Chunk>)
    ensures Quiet(Issues(uploadId, batch))
    decreases |batch|
  {
    if batch != [] {
      IssuesQuiet(uploadId, batch[1..]);
      var t := Issues(uploadId, batch[1..]);
      assert forall i :: 1 <= i < |t| + 1 ==> ([Upload(uploadId, PartNumber(batch[0].index))] + t)[i] == t[i - 1];
    }
  }

  /** One callback of a request: the new report is at least every earlier one. */
  lemma ChunkProgressStep(index: nat, v: nat, s: State, size: nat)
    requires index < |s.chunks| && size > 0 && s.chunks[index].loaded <= v
    requires Ordered(s, size)
    ensures var chunks' := s.chunks[index := s.chunks[index].(loaded := v)];
            Ordered(State(s.events + [Report(index, v, TotalProgress(chunks', size))], chunks'), size)
    ensures TotalProgress(s.chunks, size) <= TotalProgress(s.chunks[index := s.chunks[index].(loaded := v)], size)
  {
    var chunks' := s.chunks[index := s.chunks[index].(loaded := v)];
    ProgressMonotone(s.chunks, index, v, size);
    AppendReport(s.events, TotalProgress(s.chunks, size), Report(index, v, TotalProgress(chunks', size)));
  }

  /**
   * The callbacks of one request, whose values grow from at least the
   * slot's current counter, append sorted reports and never lower the total.
   */
  lemma {:induction false} ChunkProgressOrdered(index: nat, values: seq<nat>, s: State, size: nat)
    requires index < |s.chunks| && size > 0
    requires Growing(values) && (values != [] ==> s.chunks[index].loaded <= values[0])
    requires Ordered(s, size)
    ensures Ordered(ChunkProgress(index, values, s, size), size)
    ensures TotalProgress(s.chunks, size) <= TotalProgress(ChunkProgress(index, values, s, size).chunks, size)
    decreases |values|
  {
    if values != [] {
      var chunks' := s.chunks[index := s.chunks[index].(loaded := values[0])];
      var s' := State(s.events + [Report(index, values[0], TotalProgress(chunks', size))], chunks');
      ChunkProgressStep(index, values[0], s, size);
      assert |values| > 1 ==> values[0] <= values[1];
      assert Growing(values[1..]) by {
        forall i, j | 0 <= i < j < |values[1..]|
          ensures values[1..][i] <= values[1..][j]
        {
          assert values[1..][i] == values[i + 1] && values[1..][j] == values[j + 1];
        }
      }
      ChunkProgressOrdered(index, values[1..], s', size);
    }
  }

  /** The requests after the first of a window are still untouched once the first has reported. */
  lemma UntouchedTail(batch: seq<Chunk>, s: State, r: State)
    requires batch != [] && Untouched(batch, s.chunks) && |r.chunks| == |s.chunks|
    requires forall j :: 0 <= j < |s.chunks| && j != batch[0].index ==> r.chunks[j] == s.chunks[j]
    ensures Untouched(batch[1..], r.chunks)
  {
    forall k | 0 <= k < |batch[1..]|
      ensures batch[1..][k].index < |r.chunks| && r.chunks[batch[1..][k].index].loaded == 0
    {
      assert batch[1..][k] == batch[k + 1];
    }
    forall i, j | 0 <= i < j < |batch[1..]|
      ensures batch[1..][i].index != batch[1..][j].index
    {
      assert batch[1..][i] == batch[i + 1] && batch[1..][j] == batch[j + 1];
    }
  }

  /** The callbacks of a window of untouched requests append sorted reports and never lower the total. */
  lemma {:induction false} BatchProgressOrdered(batch: seq<Chunk>, parts: nat -> PartReply, s: State, size: nat)
    requires size > 0 && Untouched(batch, s.chunks) && GrowingProgress(parts)
    requires Ordered(s, size)
    ensures Indexed(batch, |s.chunks|)
    ensures Ordered(BatchProgress(batch, parts, s, size), size)
    ensures TotalProgress(s.chunks, size) <= TotalProgress(BatchProgress(batch, parts, s, size).chunks, size)
    decreases |batch|
  {
    if batch != [] {
      var index := batch[0].index;
      var values := parts(index).progress;
      assert Growing(values);
      var first := ChunkProgress(index, values, s, size);
      ChunkProgressOrdered(index, values, s, size);
      ChunkProgressGrows(index, values, s, size);
      UntouchedTail(batch, s, first);
      BatchProgressOrdered(batch[1..], parts, first, size);
    }
  }

  /** What is left of the list after a window is still untouched once the window has reported. */
  lemma UntouchedRest(xs: seq<Chunk>, n: nat, parts: nat -> PartReply, s: State, size: nat)
    requires size > 0 && n <= |xs| && Untouched(xs, s.chunks)
    ensures Indexed(xs[..n], |s.chunks|)
    ensures Untouched(xs[n..], BatchProgress(xs[..n], parts, s, size).chunks)
  {
    var batch := xs[..n];
    var r := BatchProgress(batch, parts, s, size);
    BatchProgressGrows(batch, parts, s, size);
    forall k | 0 <= k < |xs[n..]|
      ensures xs[n..][k].index < |r.chunks| && r.chunks[xs[n..][k].index].loaded == 0
    {
      assert xs[n..][k] == xs[n + k];
      forall m | 0 <= m < |batch|
        ensures batch[m].index != xs[n + k].index
      {
        assert batch[m] == xs[m];
      }
    }
    forall i, j | 0 <= i < j < |xs[n..]|
      ensures xs[n..][i].index != xs[n..][j].index
    {
      assert xs[n..][i] == xs[n + i] && xs[n..][j] == xs[n + j];
    }
  }

  /** The upload loop over untouched requests appends reports in non-decreasing order. */
  lemma {:induction false} UploadPhaseOrdered(uploadId: string, xs: seq<Chunk>, fileCount: nat,
                                              parts: nat -> PartReply, s: State, size: nat)
    requires size > 0 && Untouched(xs, s.chunks) && GrowingProgress(parts)
    requires Ordered(s, size)
    ensures Indexed(xs, |s.chunks|)
    ensures Ordered(UploadPhase(uploadId, xs, fileCount, parts, s, size).state, size)
    decreases |xs|
  {
    if xs != [] {
      var n := SpliceLength(fileCount, |xs|);
      var requests := xs[..n];
      var sent := State(s.events + Issues(uploadId, requests), s.chunks);
      IssuesQuiet(uploadId, requests);
      AppendQuiet(s.events, TotalProgress(s.chunks, size), Issues(uploadId, requests));
      assert Untouched(requests, sent.chunks) by {
        forall i, j | 0 <= i < j < |requests|
          ensures requests[i].index != requests[j].index
        {
          assert requests[i] == xs[i] && requests[j] == xs[j];
        }
      }
      BatchProgressOrdered(requests, parts, sent, size);
      UntouchedRest(xs, n, parts, sent, size);
      var progress := BatchProgress(requests, parts, sent, size);
      if JoinError(requests, parts).None? {
        UploadPhaseOrdered(uploadId, xs[n..], fileCount, parts, progress, size);
      }
    }
  }

  /**
   * Within a session the reported progress never decreases: when every
   * part upload's `e.loaded` values grow, each progress report's total is
   * at least the total of every report before it.
   */
  lemma SessionProgressSorted(fileName: string, size: nat, fileCount: nat, init: Reply,
                              parts: nat -> PartReply, merge: Reply)
    requires GrowingProgress(parts)
    ensures ReportsSorted(Session(fileName, size, fileCount, init, parts, merge).events)
  {
    if InitUploadId(init).Some? {
      var id := InitUploadId(init).value;
      var chunks := Planned(size);
      var s0 := State([Initiate(fileName), Start], chunks);
      var phase := SessionLoop(id, fileName, size, fileCount, parts);
      var z := Settlement(id, phase.error, merge);
      SessionShape(fileName, size, fileCount, init, parts, merge);
      assert Quiet(z);
      if size == 0 {
        assert chunks == [];
        assert phase.state.events == [Initiate(fileName), Start];
        AppendQuiet(phase.state.events, 0.0, z);
      } else {
        assert Untouched(chunks, chunks) by {
          assert forall k :: 0 <= k < |chunks| ==> chunks[k].index == k;
        }
        UploadPhaseOrdered(id, chunks, fileCount, parts, s0, size);
        AppendQuiet(phase.state.events, TotalProgress(phase.state.chunks, size), z);
      }
    }
  }
}

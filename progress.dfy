/**
 * Progress aggregation of `uploadByPieces`: on each progress callback the
 * per-chunk `loaded` counters are summed (`chunkList.reduce`) and turned
 * into a percentage of the file size that is capped at 99.9.
 */
module Progress {
  import opened ChunkPlan

  /** The largest percentage ever reported; 100 is left to the merge reply. */
  const ProgressCap: real := 99.9

  /** `chunkList.reduce((prev, cur) => prev + cur.loaded, 0)`, folded from the left. */
  function Sum(chunks: seq<Chunk>): nat
    decreases |chunks|
  {
    if chunks == [] then 0 else Sum(chunks[..|chunks| - 1]) + chunks[|chunks| - 1].loaded
  }

  /** The uncapped percentage `sum / totalSize * 100`, in exact rationals. */
  function RawPercent(chunkList: seq<Chunk>, totalSize: nat): real
    requires totalSize > 0
  {
    (Sum(chunkList) as real / totalSize as real) * 100.0
  }

  /**
   * `e.totalProgress = Math.min(sum / totalSize * 100, 99.9)`: the
   * reported percentage is never negative and never above 99.9, and below
   * the cap it is exactly the loaded share of the file.
   */
  function TotalProgress(chunkList: seq<Chunk>, totalSize: nat): (p: real)
    requires totalSize > 0
    ensures 0.0 <= p <= ProgressCap
    ensures p < ProgressCap ==> p == RawPercent(chunkList, totalSize)
    ensures RawPercent(chunkList, totalSize) >= ProgressCap ==> p == ProgressCap
    ensures RawPercent(chunkList, totalSize) <= ProgressCap ==> p == RawPercent(chunkList, totalSize)
  {
    var raw := RawPercent(chunkList, totalSize);
    assert raw >= 0.0 by {
      var s, t := Sum(chunkList) as real, totalSize as real;
      assert s / t >= 0.0;
    }
    if raw < ProgressCap then raw else ProgressCap
  }

  /** Sum over a sequence with one more element at the end. */
  lemma SumSnoc(s: seq<Chunk>, c: Chunk)
    ensures Sum(s + [c]) == Sum(s) + c.loaded
  {
    assert (s + [c])[..|s|] == s;
  }

  /**
   * Overwriting one counter changes the sum by exactly the difference: the
   * other counters contribute as before.
   */
  lemma {:induction false} SumUpdate(s: seq<Chunk>, i: nat, v: nat)
    requires i < |s|
    ensures Sum(s[i := s[i].(loaded := v)]) + s[i].loaded == Sum(s) + v
    decreases |s|
  {
    var n := |s| - 1;
    var c := s[i].(loaded := v);
    if i == n {
      assert s[i := c] == s[..n] + [c];
      assert s == s[..n] + [s[n]];
      SumSnoc(s[..n], c);
      SumSnoc(s[..n], s[n]);
    } else {
      assert s[i := c] == s[..n][i := c] + [s[n]];
      assert s == s[..n] + [s[n]];
      SumSnoc(s[..n][i := c], s[n]);
      SumSnoc(s[..n], s[n]);
      SumUpdate(s[..n], i, v);
    }
  }

  /** Counters that are all zero: the progress of a freshly planned chunk list. */
  lemma {:induction false} SumZero(s: seq<Chunk>)
    requires forall k :: 0 <= k < |s| ==> s[k].loaded == 0
    ensures Sum(s) == 0
    decreases |s|
  {
    if s != [] {
      SumZero(s[..|s| - 1]);
    }
  }

  /**
   * A callback that raises one counter (axios reports growing `loaded`
   * values for one request) never lowers the reported progress.
   */
  lemma ProgressMonotone(s: seq<Chunk>, i: nat, v: nat, totalSize: nat)
    requires i < |s| && s[i].loaded <= v && totalSize > 0
    ensures TotalProgress(s, totalSize) <= TotalProgress(s[i := s[i].(loaded := v)], totalSize)
  {
    var s' := s[i := s[i].(loaded := v)];
    SumUpdate(s, i, v);
    DivideMonotone(Sum(s) as real, Sum(s') as real, totalSize as real);
  }

  lemma DivideMonotone(a: real, b: real, t: real)
    requires a <= b && t > 0.0
    ensures (a / t) * 100.0 <= (b / t) * 100.0
  {
    assert b / t - a / t == (b - a) / t;
    assert (b - a) / t >= 0.0;
  }

  /** Before any callback every counter is 0, and so is the progress. */
  lemma ProgressOfZeros(s: seq<Chunk>, totalSize: nat)
    requires forall k :: 0 <= k < |s| ==> s[k].loaded == 0
    requires totalSize > 0
    ensures TotalProgress(s, totalSize) == 0.0
  {
    SumZero(s);
  }
}

/**
 * Batch scheduling of `uploadByPieces`: the working copy `requestsList` is
 * drained by `splice(0, Math.ceil(MAX_REQUEST / fileList.length))`, so the
 * chunks are uploaded in consecutive windows of at most `Window` chunks.
 */
module Batching {

  /** `MAX_REQUEST`: the concurrency budget shared by the files of one selection. */
  const MaxRequest: nat := 6

  /** `Math.ceil(MAX_REQUEST / fileList.length)` for a non-empty file list. */
  function Window(fileCount: nat): (w: nat)
    requires fileCount >= 1
    ensures 1 <= w <= MaxRequest
  {
    if fileCount >= MaxRequest then 1 else (MaxRequest + fileCount - 1) / fileCount
  }

  /**
   * `Window` is the ceiling of `MAX_REQUEST / fileList.length`: the least
   * window that, taken by every file of the selection, fills the budget.
   */
  lemma WindowIsCeiling(fileCount: nat)
    requires fileCount >= 1
    ensures Window(fileCount) * fileCount >= MaxRequest
    ensures (Window(fileCount) - 1) * fileCount < MaxRequest
  {
  }

  /**
   * How many items `requestsList.splice(0, Math.ceil(MAX_REQUEST / fileList.length))`
   * removes from a list of `remaining` items. With an empty file list the
   * ceiling is `Infinity` and splice takes everything.
   */
  function SpliceLength(fileCount: nat, remaining: nat): (k: nat)
    ensures k <= remaining
    ensures remaining > 0 ==> k > 0
    ensures fileCount >= 1 ==> k == remaining || k == Window(fileCount)
    ensures fileCount >= 1 && k < remaining ==> k == Window(fileCount)
    ensures fileCount >= 1 && remaining >= Window(fileCount) ==> k == Window(fileCount)
    ensures fileCount == 0 ==> k == remaining
  {
    if fileCount == 0 || remaining <= Window(fileCount) then remaining else Window(fileCount)
  }

  /** The windows the `while (requestsList.length)` loop takes off `xs`, in order. */
  function Batches<T>(xs: seq<T>, fileCount: nat): (bs: seq<seq<T>>)
    decreases |xs|
  {
    if xs == [] then []
    else
      var k := SpliceLength(fileCount, |xs|);
      [xs[..k]] + Batches(xs[k..], fileCount)
  }

  /** Concatenation of a sequence of sequences. */
  function Flatten<T>(bs: seq<seq<T>>): seq<T>
    decreases |bs|
  {
    if bs == [] then [] else bs[0] + Flatten(bs[1..])
  }

  /** The windows, put back together, are the list they were taken from. */
  lemma {:induction false} FlattenBatches<T>(xs: seq<T>, fileCount: nat)
    ensures Flatten(Batches(xs, fileCount)) == xs
    decreases |xs|
  {
    if xs != [] {
      var k := SpliceLength(fileCount, |xs|);
      FlattenBatches(xs[k..], fileCount);
      assert xs[..k] + xs[k..] == xs;
    }
  }

  /**
   * Every window is non-empty and holds at most `Window(fileCount)` items,
   * and every window but the last holds exactly that many.
   */
  lemma {:induction false} BatchSizes<T>(xs: seq<T>, fileCount: nat)
    requires fileCount >= 1
    ensures forall k :: 0 <= k < |Batches(xs, fileCount)| ==>
              1 <= |Batches(xs, fileCount)[k]| <= Window(fileCount)
    ensures forall k :: 0 <= k < |Batches(xs, fileCount)| - 1 ==>
              |Batches(xs, fileCount)[k]| == Window(fileCount)
    decreases |xs|
  {
    if xs != [] {
      var k := SpliceLength(fileCount, |xs|);
      BatchSizes(xs[k..], fileCount);
      var bs := Batches(xs, fileCount);
      assert bs[1..] == Batches(xs[k..], fileCount);
      if k == |xs| {
        assert xs[k..] == [];
      }
    }
  }

  /**
   * There are `ceil(|xs| / Window(fileCount))` windows: `|xs|` items fit
   * in that many windows and not in one fewer.
   */
  lemma {:induction false} BatchCount<T>(xs: seq<T>, fileCount: nat)
    requires fileCount >= 1
    ensures |Batches(xs, fileCount)| == 0 <==> xs == []
    ensures |xs| <= |Batches(xs, fileCount)| * Window(fileCount)
    ensures xs != [] ==> (|Batches(xs, fileCount)| - 1) * Window(fileCount) < |xs|
    decreases |xs|
  {
    var w := Window(fileCount);
    if xs != [] {
      var k := SpliceLength(fileCount, |xs|);
      var bs := Batches(xs, fileCount);
      assert bs == [xs[..k]] + Batches(xs[k..], fileCount);
      BatchCount(xs[k..], fileCount);
      ProductStep(|bs|, w);
      if k == |xs| {
        assert xs[k..] == [];
      }
    }
  }

  lemma ProductStep(k: nat, w: nat)
    requires k >= 1
    ensures k * w == (k - 1) * w + w
  {
  }

  /** With an empty file list everything goes in one window. */
  lemma NoFilesOneBatch<T>(xs: seq<T>)
    requires xs != []
    ensures Batches(xs, 0) == [xs]
  {
    assert SpliceLength(0, |xs|) == |xs|;
    assert xs[..|xs|] == xs && xs[|xs|..] == [];
    assert Batches(xs[|xs|..], 0) == [];
  }

  /** The window sizes for one, two, three, six and seven files. */
  lemma WindowExamples()
    ensures Window(1) == 6 && Window(2) == 3 && Window(3) == 2
    ensures Window(6) == 1 && Window(7) == 1
  {
  }
}

/**
 * Chunk planning of `uploadByPieces`: the file is cut into consecutive
 * 10 MiB chunks, and chunk `index` covers the bytes
 * `[index * chunkSize, min(size, index * chunkSize + chunkSize))`.
 */
module ChunkPlan {

  /** `chunkSize`: 10 MiB per chunk. */
  const ChunkSize: nat := 10 * 1024 * 1024

  /** A half-open byte range `[start, end)` of the file, what `file.slice(start, end)` cuts. */
  datatype ByteRange = ByteRange(start: nat, end: nat)
  {
    function Length(): nat { if start <= end then end - start else 0 }
  }

  /** `Math.ceil(file.size / chunkSize)`: the least number of chunks that holds every byte. */
  function ChunkCount(size: nat): (n: nat)
    ensures n * ChunkSize >= size
    ensures n > 0 ==> (n - 1) * ChunkSize < size
    ensures n == 0 <==> size == 0
  {
    (size + ChunkSize - 1) / ChunkSize
  }

  /**
   * `getChunkInfo(file, index)`: the byte range of chunk `index`. Every
   * planned chunk is non-empty, inside the file, at most one chunk long,
   * and only the last one may be shorter.
   */
  function ChunkRange(size: nat, index: nat): (r: ByteRange)
    ensures r.start == index * ChunkSize
    ensures index < ChunkCount(size) ==> r.start < r.end <= size
    ensures index < ChunkCount(size) ==> r.Length() <= ChunkSize
    ensures index + 1 < ChunkCount(size) ==> r.Length() == ChunkSize
    ensures index + 1 == ChunkCount(size) ==> r.end == size
  {
    var start := index * ChunkSize;
    ByteRange(start, if size < start + ChunkSize then size else start + ChunkSize)
  }

  /** A `chunkList` item: its `loaded` counter, its `index`, and the slice its FormData holds. */
  datatype Chunk = Chunk(loaded: nat, index: nat, range: ByteRange)

  /** The item the planning loop pushes for chunk `index`. */
  function NewChunk(size: nat, index: nat): Chunk
  {
    Chunk(0, index, ChunkRange(size, index))
  }

  /** The whole `chunkList` after the planning loop. */
  function Planned(size: nat): (cs: seq<Chunk>)
    ensures |cs| == ChunkCount(size)
    ensures forall k :: 0 <= k < |cs| ==> cs[k] == NewChunk(size, k)
  {
    seq(ChunkCount(size), k requires 0 <= k => NewChunk(size, k))
  }

  /** Part numbers sent to the store start at 1: `partNumber = index + 1`. */
  function PartNumber(index: nat): (p: nat)
    ensures p >= 1
  {
    index + 1
  }

  /** Each planned chunk ends where the next one starts: no gap and no overlap. */
  lemma RangesContiguous(size: nat, index: nat)
    requires index + 1 < ChunkCount(size)
    ensures ChunkRange(size, index).end == ChunkRange(size, index + 1).start
  {
  }

  /** The planned chunks start at byte 0 and the last one ends at the file's end. */
  lemma RangesSpanFile(size: nat)
    requires size > 0
    ensures ChunkRange(size, 0).start == 0
    ensures ChunkRange(size, ChunkCount(size) - 1).end == size
  {
  }

  /**
   * Every byte of the file lies in exactly one planned chunk, chunk
   * `b / ChunkSize`; so the ranges partition `[0, size)`.
   */
  lemma ByteInExactlyOneChunk(size: nat, b: nat)
    requires b < size
    ensures b / ChunkSize < ChunkCount(size)
    ensures ChunkRange(size, b / ChunkSize).start <= b < ChunkRange(size, b / ChunkSize).end
    ensures forall j: nat :: j < ChunkCount(size) && ChunkRange(size, j).start <= b < ChunkRange(size, j).end
                        ==> j == b / ChunkSize
  {
    var i := b / ChunkSize;
    assert i * ChunkSize <= b < i * ChunkSize + ChunkSize;
    forall j: nat | j < ChunkCount(size) && ChunkRange(size, j).start <= b < ChunkRange(size, j).end
      ensures j == i
    {
      assert j * ChunkSize <= b < j * ChunkSize + ChunkSize;
    }
  }

  /** A 0-byte file has no chunk at all. */
  lemma EmptyFileHasNoChunks()
    ensures ChunkCount(0) == 0
  {
  }

  /** A 25 MiB file is planned as chunks of 10, 10 and 5 MiB. */
  lemma TwentyFiveMiBFile()
    ensures ChunkCount(25 * 1024 * 1024) == 3
    ensures ChunkRange(25 * 1024 * 1024, 0).Length() == 10 * 1024 * 1024
    ensures ChunkRange(25 * 1024 * 1024, 1).Length() == 10 * 1024 * 1024
    ensures ChunkRange(25 * 1024 * 1024, 2).Length() == 5 * 1024 * 1024
  {
  }
}

/**
 * The `pixel-generation` job: one row per cell of a `size_x` by `size_y` canvas, built by
 * two nested loops (x outer, y inner), then inserted 5000 rows at a time.
 */
module PixelGenerationWorker {

  /** The job data; the timestamps are opaque values. */
  datatype GenerationJob = GenerationJob(canvasId: int, sizeX: int, sizeY: int, createdAt: int, updatedAt: int)

  /** A new `Pixel` entity. */
  datatype NewPixel = NewPixel(canvasId: int, x: int, y: int, createdAt: int, updatedAt: int)

  const InsertChunkSize := 5000

  function PixelAt(job: GenerationJob, x: int, y: int): NewPixel {
    NewPixel(job.canvasId, x, y, job.createdAt, job.updatedAt)
  }

  /** A dimension as the loop bound `i < size` sees it: a non-positive size runs no iteration. */
  function Extent(size: int): nat {
    if size > 0 then size else 0
  }

  /** The pixels of row `x` (every y), in loop order. */
  function Column(job: GenerationJob, x: int, n: nat): seq<NewPixel>
    decreases n
  {
    if n == 0 then [] else Column(job, x, n - 1) + [PixelAt(job, x, n - 1)]
  }

  /** The pixels of the first `n` values of x, in loop order. */
  function Grid(job: GenerationJob, n: nat): seq<NewPixel>
    decreases n
  {
    if n == 0 then [] else Grid(job, n - 1) + Column(job, n - 1, Extent(job.sizeY))
  }

  lemma {:induction false} ColumnShape(job: GenerationJob, x: int, n: nat)
    ensures |Column(job, x, n)| == n
    ensures forall y :: 0 <= y < n ==> Column(job, x, n)[y] == PixelAt(job, x, y)
    decreases n
  {
    if n > 0 {
      ColumnShape(job, x, n - 1);
    }
  }

  lemma MulMono(a: int, b: int, c: nat)
    requires a <= b
    ensures a * c <= b * c
  {
  }

  /** The position `x * sy + y` of cell (x, y) in the loop order of an sx by sy grid. */
  function CellIndex(x: nat, y: nat, sx: nat, sy: nat): (i: nat)
    requires x < sx && y < sy
    ensures i < sx * sy
  {
    MulMono(x + 1, sx, sy);
    x * sy + y
  }

  /** The grid holds n * sizeY pixels, and (x, y) sits at index x * sizeY + y. */
  lemma {:induction false} GridShape(job: GenerationJob, n: nat)
    ensures |Grid(job, n)| == n * Extent(job.sizeY)
    ensures forall x: nat, y: nat :: x < n && y < Extent(job.sizeY) ==>
      Grid(job, n)[CellIndex(x, y, n, Extent(job.sizeY))] == PixelAt(job, x, y)
    decreases n
  {
    if n > 0 {
      var sy := Extent(job.sizeY);
      var front := Grid(job, n - 1);
      GridShape(job, n - 1);
      ColumnShape(job, n - 1, sy);
      assert n * sy == (n - 1) * sy + sy;
      forall x: nat, y: nat | x < n && y < sy
        ensures Grid(job, n)[CellIndex(x, y, n, sy)] == PixelAt(job, x, y)
      {
        if x < n - 1 {
          assert CellIndex(x, y, n, sy) == CellIndex(x, y, n - 1, sy);
        } else {
          assert CellIndex(x, y, n, sy) == |front| + y;
        }
      }
    }
  }

  /** The pixels the job builds. */
  function PixelsOf(job: GenerationJob): seq<NewPixel> {
    Grid(job, Extent(job.sizeX))
  }

  /** Every pixel of the first `n` rows lies on the canvas and carries the job's id and timestamps, and none repeats. */
  lemma {:induction false} GridMembers(job: GenerationJob, n: nat)
    ensures forall p :: p in Grid(job, n) ==>
      p.canvasId == job.canvasId && p.createdAt == job.createdAt && p.updatedAt == job.updatedAt &&
      0 <= p.x < n && 0 <= p.y < Extent(job.sizeY)
    ensures forall i, j :: 0 <= i < j < |Grid(job, n)| ==> Grid(job, n)[i] != Grid(job, n)[j]
    decreases n
  {
    if n > 0 {
      var front := Grid(job, n - 1);
      var col := Column(job, n - 1, Extent(job.sizeY));
      GridMembers(job, n - 1);
      ColumnShape(job, n - 1, Extent(job.sizeY));
      assert forall p :: p in col ==> p.x == n - 1 && 0 <= p.y < Extent(job.sizeY);
      var g := front + col;
      forall i, j | 0 <= i < j < |g|
        ensures g[i] != g[j]
      {
        if j >= |front| && i < |front| {
          assert g[i] in front && g[j] in col;
        } else if i >= |front| {
          assert g[i] == col[i - |front|] && g[j] == col[j - |front|];
        }
      }
    }
  }

  /**
   * The job yields exactly size_x * size_y pixels; cell (x, y) is the one at index
   * x * size_y + y, each cell appears once, and every pixel lies on the canvas and
   * carries the job's canvas id and timestamps.
   */
  lemma GenerationCoversGrid(job: GenerationJob)
    ensures |PixelsOf(job)| == Extent(job.sizeX) * Extent(job.sizeY)
    ensures forall x: nat, y: nat :: x < Extent(job.sizeX) && y < Extent(job.sizeY) ==>
      PixelsOf(job)[CellIndex(x, y, Extent(job.sizeX), Extent(job.sizeY))] == PixelAt(job, x, y)
    ensures forall p :: p in PixelsOf(job) ==>
      p.canvasId == job.canvasId && p.createdAt == job.createdAt && p.updatedAt == job.updatedAt &&
      0 <= p.x < Extent(job.sizeX) && 0 <= p.y < Extent(job.sizeY)
    ensures forall i, j :: 0 <= i < j < |PixelsOf(job)| ==> PixelsOf(job)[i] != PixelsOf(job)[j]
  {
    GridShape(job, Extent(job.sizeX));
    GridMembers(job, Extent(job.sizeX));
  }

  /** The nested generation loops. */
  method GeneratePixels(job: GenerationJob) returns (pixels: seq<NewPixel>)
    ensures pixels == PixelsOf(job)
  {
    pixels := [];
    var x := 0;
    while x < job.sizeX
      invariant 0 <= x <= Extent(job.sizeX)
      invariant pixels == Grid(job, x)
    {
      var y := 0;
      ghost var before := pixels;
      while y < job.sizeY
        invariant 0 <= y <= Extent(job.sizeY)
        invariant pixels == before + Column(job, x, y)
      {
        pixels := pixels + [PixelAt(job, x, y)];
        y := y + 1;
      }
      assert y == Extent(job.sizeY);
      x := x + 1;
    }
    assert x == Extent(job.sizeX);
  }

  /** The insert batches: consecutive slices of at most 5000 pixels. */
  function ChunksOf(pixels: seq<NewPixel>): seq<seq<NewPixel>>
    decreases |pixels|
  {
    if pixels == [] then []
    else if |pixels| <= InsertChunkSize then [pixels]
    else [pixels[..InsertChunkSize]] + ChunksOf(pixels[InsertChunkSize..])
  }

  function Concat(chunks: seq<seq<NewPixel>>): seq<NewPixel>
    decreases |chunks|
  {
    if chunks == [] then [] else chunks[0] + Concat(chunks[1..])
  }

  /** The chunks are non-empty, at most 5000 long, and concatenate to the pixels in order. */
  lemma {:induction false} ChunksCover(pixels: seq<NewPixel>)
    ensures Concat(ChunksOf(pixels)) == pixels
    ensures forall c :: c in ChunksOf(pixels) ==> 0 < |c| <= InsertChunkSize
    decreases |pixels|
  {
    if |pixels| > InsertChunkSize {
      ChunksCover(pixels[InsertChunkSize..]);
      assert pixels[..InsertChunkSize] + pixels[InsertChunkSize..] == pixels;
    }
  }

  /** The stepping loop `for (i = 0; i < pixels.length; i += 5000)`. */
  method InsertChunks(pixels: seq<NewPixel>) returns (inserts: seq<seq<NewPixel>>)
    ensures inserts == ChunksOf(pixels)
  {
    inserts := [];
    var i := 0;
    while i < |pixels|
      invariant 0 <= i
      invariant i < |pixels| ==> inserts + ChunksOf(pixels[i..]) == ChunksOf(pixels)
      invariant i >= |pixels| ==> inserts == ChunksOf(pixels)
    {
      var end := if i + InsertChunkSize < |pixels| then i + InsertChunkSize else |pixels|;
      if i + InsertChunkSize < |pixels| {
        assert pixels[i..][..InsertChunkSize] == pixels[i..end];
        assert pixels[i..][InsertChunkSize..] == pixels[i + InsertChunkSize..];
      } else {
        assert pixels[i..] == pixels[i..end];
      }
      inserts := inserts + [pixels[i..end]];
      i := i + InsertChunkSize;
    }
  }

  /** The job handler: the inserts it issues, in order. */
  method RunGenerationJob(job: GenerationJob) returns (inserts: seq<seq<NewPixel>>)
    ensures inserts == ChunksOf(PixelsOf(job))
  {
    var pixels := GeneratePixels(job);
    inserts := InsertChunks(pixels);
  }

  /** A zero (or negative) dimension yields no pixels and so no insert. */
  lemma EmptyCanvasInsertsNothing(job: GenerationJob)
    requires job.sizeX <= 0 || job.sizeY <= 0
    ensures ChunksOf(PixelsOf(job)) == []
  {
    GridShape(job, Extent(job.sizeX));
  }
}

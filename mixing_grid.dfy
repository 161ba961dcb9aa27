/**
 * The mixing-time image processor: an image of `height` × `width` pixels is cut into a
 * row-major grid of square blocks, clipped at the right and bottom edges, and each block gets
 * one histogram per colour channel with 256 bins for 8-bit and 4096 bins for 16-bit images.
 * A histogram is represented by what it is computed over (block, channel, bin count); the
 * counting itself is the image library's.
 */
module MixingGrid {
  import opened Wrappers
  import TimeCalc

  /** A block's rows `startY` up to `endY` and columns `startX` up to `endX`, ends excluded. */
  datatype Block = Block(startY: nat, endY: nat, startX: nat, endX: nat)

  /** A histogram of one channel of one block. */
  datatype Hist = Hist(block: Block, channel: nat, bins: nat)

  /** Keys of the result dict: "Metadata" or a block index. */
  datatype Key = MetadataKey | BlockKey(index: nat)

  /** `[num_blocks_x, num_blocks_y, block_size, side]` and `[hist_red, hist_green, hist_blue]`. */
  datatype Entry = Metadata(blocksX: nat, blocksY: nat, blockSize: nat, side: string) | Hists(hists: seq<Hist>)

  datatype DepthError = UnsupportedBitDepth

  function MinNat(a: nat, b: nat): nat { if a <= b then a else b }

  /** `max(1, int(min(height, width) * granularity))`. */
  function BlockSize(height: nat, width: nat, granularity: real): (r: nat)
    ensures r >= 1
  {
    var t := TimeCalc.Trunc(MinNat(height, width) as real * granularity);
    if t >= 1 then t else 1
  }

  /** For a granularity in (0, 1] the blocks are no larger than the shorter side of a non-empty image. */
  lemma BlockSizeBounds(height: nat, width: nat, granularity: real)
    requires 0.0 < granularity <= 1.0 && MinNat(height, width) >= 1
    ensures 1 <= BlockSize(height, width, granularity) <= MinNat(height, width)
  {
    var m := MinNat(height, width) as real;
    assert m * granularity <= m;
  }

  /** The number of blocks along a side: the side over the block size, plus one for a remainder. */
  function Blocks(side: nat, size: nat): nat
    requires size >= 1
  {
    side / size + (if side % size != 0 then 1 else 0)
  }

  /** The block count is the ceiling: the blocks reach the end of the side and the last one starts before it. */
  lemma BlocksCeil(side: nat, size: nat)
    requires size >= 1
    ensures side <= Blocks(side, size) * size
    ensures Blocks(side, size) > 0 ==> (Blocks(side, size) - 1) * size < side
    ensures Blocks(side, size) == 0 <==> side == 0
  {
    var q, r := side / size, side % size;
    assert side == q * size + r;
    if r != 0 {
      assert Blocks(side, size) * size == q * size + size;
    }
  }

  /** The block in grid row `y` and column `x`, clipped to the image. */
  function BlockAt(height: nat, width: nat, size: nat, y: nat, x: nat): Block
  {
    Block(y * size, if (y + 1) * size <= height then (y + 1) * size else height,
          x * size, if (x + 1) * size <= width then (x + 1) * size else width)
  }

  /** One grid row, left to right. */
  function GridRow(height: nat, width: nat, size: nat, nx: nat, y: nat): (r: seq<Block>)
    ensures |r| == nx
    ensures forall x :: 0 <= x < nx ==> r[x] == BlockAt(height, width, size, y, x)
  {
    seq(nx, x requires 0 <= x < nx => BlockAt(height, width, size, y, x))
  }

  /** The first `rows` grid rows, top to bottom. */
  function GridRows(height: nat, width: nat, size: nat, nx: nat, rows: nat): seq<Block>
  {
    if rows == 0 then [] else GridRows(height, width, size, nx, rows - 1) + GridRow(height, width, size, nx, rows - 1)
  }

  /** The blocks `image_grid` produces. */
  function Grid(height: nat, width: nat, size: nat): seq<Block>
    requires size >= 1
  {
    GridRows(height, width, size, Blocks(width, size), Blocks(height, size))
  }

  /** `rows` rows hold `rows`·`nx` blocks. */
  lemma {:induction false} GridRowsLen(height: nat, width: nat, size: nat, nx: nat, rows: nat)
    ensures |GridRows(height, width, size, nx, rows)| == rows * nx
  {
    if rows > 0 {
      GridRowsLen(height, width, size, nx, rows - 1);
      assert rows * nx == (rows - 1) * nx + nx;
    }
  }

  /** Block `y`·`nx` + `x` of the first `rows` rows is the one in row `y`, column `x`. */
  lemma {:induction false} GridRowsAt(height: nat, width: nat, size: nat, nx: nat, rows: nat, y: nat, x: nat)
    requires y < rows && x < nx
    ensures y * nx + x < rows * nx && y * nx + x < |GridRows(height, width, size, nx, rows)|
    ensures GridRows(height, width, size, nx, rows)[y * nx + x] == BlockAt(height, width, size, y, x)
  {
    var pre := GridRows(height, width, size, nx, rows - 1);
    GridRowsLen(height, width, size, nx, rows - 1);
    GridRowsLen(height, width, size, nx, rows);
    assert rows * nx == (rows - 1) * nx + nx;
    if y < rows - 1 {
      GridRowsAt(height, width, size, nx, rows - 1, y, x);
    } else {
      assert y * nx + x == |pre| + x;
    }
  }

  lemma MulLess(y: nat, r: nat, n: nat, x: nat)
    requires y < r && x < n
    ensures y * n + x < r * n
  {
    MulMono(y + 1, r, n);
  }

  lemma MulMono(a: nat, b: nat, c: nat)
    requires a <= b
    ensures a * c <= b * c
  {
  }

  lemma MulCancel(a: nat, b: nat, c: nat)
    requires a * c < b * c
    ensures a < b
  {
  }

  lemma ProductPositive(a: nat, b: nat)
    requires a * b > 0
    ensures b > 0
  {
  }

  /** Which grid row or column holds pixel `p` along a side. */
  lemma CellOf(p: nat, size: nat, y: nat)
    requires size >= 1
    ensures y * size <= p < (y + 1) * size <==> y == p / size
  {
    var q: nat := p / size;
    assert q * size <= p < q * size + size;
    assert (q + 1) * size == q * size + size;
    assert (y + 1) * size == y * size + size;
    if y * size <= p < (y + 1) * size {
      MulCancel(y, q + 1, size);
      MulCancel(q, y + 1, size);
    }
  }

  predicate Contains(b: Block, py: nat, px: nat)
  {
    b.startY <= py < b.endY && b.startX <= px < b.endX
  }

  /** Block `k` of a grid with `nx` columns and `ny` rows sits in row `k / nx` and column `k % nx`. */
  lemma RowCol(k: nat, nx: nat, ny: nat)
    requires k < ny * nx
    ensures nx > 0 && 0 <= k / nx < ny && 0 <= k % nx < nx && k == (k / nx) * nx + k % nx
  {
    ProductPositive(ny, nx);
    var y: nat := k / nx;
    assert y * nx <= k;
    MulCancel(y, ny, nx);
  }

  /** Along one side, the span of grid row `y` starts inside the side and is not empty. */
  lemma SpanInside(side: nat, size: nat, y: nat)
    requires size >= 1 && y < Blocks(side, size)
    ensures y * size < side && y * size < (y + 1) * size
  {
    BlocksCeil(side, size);
    MulMono(y, Blocks(side, size) - 1, size);
    assert (y + 1) * size == y * size + size;
  }

  /** A block of the grid lies inside the image and is not empty. */
  lemma BlockInside(height: nat, width: nat, size: nat, y: nat, x: nat)
    requires size >= 1 && y < Blocks(height, size) && x < Blocks(width, size)
    ensures var b := BlockAt(height, width, size, y, x);
            b.startY < b.endY <= height && b.startX < b.endX <= width
  {
    SpanInside(height, size, y);
    SpanInside(width, size, x);
  }

  /** Along one side, pixel `p` lies in the span of row `p / size`, which is a row of the grid. */
  lemma SpanCell(side: nat, size: nat, p: nat, y: nat)
    requires size >= 1 && p < side
    ensures (y * size <= p < (if (y + 1) * size <= side then (y + 1) * size else side)) <==> y == p / size
    ensures p / size < Blocks(side, size)
  {
    CellOf(p, size, y);
    var q: nat := p / size;
    BlocksCeil(side, size);
    assert q * size <= p;
    assert Blocks(side, size) * size >= side;
    MulCancel(q, Blocks(side, size), size);
  }

  /** A pixel lies in the block of row `py / size` and column `px / size`, and in no other block. */
  lemma PixelBlock(height: nat, width: nat, size: nat, py: nat, px: nat, y: nat, x: nat)
    requires size >= 1 && py < height && px < width
    ensures Contains(BlockAt(height, width, size, y, x), py, px) <==> y == py / size && x == px / size
    ensures py / size < Blocks(height, size) && px / size < Blocks(width, size)
  {
    SpanCell(height, size, py, y);
    SpanCell(width, size, px, x);
  }

  /** Block `k` of the grid is the one in row `k / nx` and column `k % nx`. */
  lemma GridAt(height: nat, width: nat, size: nat, k: nat)
    requires size >= 1 && k < |Grid(height, width, size)|
    ensures var nx := Blocks(width, size);
            && nx > 0 && k / nx < Blocks(height, size) && k % nx < nx
            && Grid(height, width, size)[k] == BlockAt(height, width, size, k / nx, k % nx)
  {
    var nx, ny := Blocks(width, size), Blocks(height, size);
    GridRowsLen(height, width, size, nx, ny);
    RowCol(k, nx, ny);
    var y, x := k / nx, k % nx;
    GridRowsAt(height, width, size, nx, ny, y, x);
  }

  /** Every block of the grid lies inside the image and is not empty; there are `nx`·`ny` of them. */
  lemma GridInside(height: nat, width: nat, size: nat)
    requires size >= 1
    ensures var g := Grid(height, width, size);
            && |g| == Blocks(height, size) * Blocks(width, size)
            && forall k :: 0 <= k < |g| ==> g[k].startY < g[k].endY <= height && g[k].startX < g[k].endX <= width
  {
    var nx, ny := Blocks(width, size), Blocks(height, size);
    var g := Grid(height, width, size);
    GridRowsLen(height, width, size, nx, ny);
    forall k | 0 <= k < |g|
      ensures g[k].startY < g[k].endY <= height && g[k].startX < g[k].endX <= width
    {
      GridAt(height, width, size, k);
      BlockInside(height, width, size, k / nx, k % nx);
    }
  }

  /** The block in row `y` and column `x` is block `y`·`nx` + `x` of the grid. */
  lemma GridCell(height: nat, width: nat, size: nat, y: nat, x: nat)
    requires size >= 1 && y < Blocks(height, size) && x < Blocks(width, size)
    ensures var k := y * Blocks(width, size) + x;
            k < |Grid(height, width, size)| && Grid(height, width, size)[k] == BlockAt(height, width, size, y, x)
  {
    GridRowsAt(height, width, size, Blocks(width, size), Blocks(height, size), y, x);
  }

  /** The index of the block in row `py / size` and column `px / size`. */
  function CoverIndex(width: nat, size: nat, py: nat, px: nat): nat
    requires size >= 1
  {
    (py / size) * Blocks(width, size) + px / size
  }

  /** The block at the cover index holds the pixel. */
  lemma CoverIndexHolds(height: nat, width: nat, size: nat, py: nat, px: nat)
    requires size >= 1 && py < height && px < width
    ensures CoverIndex(width, size, py, px) < |Grid(height, width, size)|
    ensures Contains(Grid(height, width, size)[CoverIndex(width, size, py, px)], py, px)
  {
    var y: nat, x: nat := py / size, px / size;
    PixelBlock(height, width, size, py, px, y, x);
    GridCell(height, width, size, y, x);
  }

  /** Every pixel lies in exactly one block of the grid: the one in row `py / size` and column `px / size`. */
  lemma GridCovers(height: nat, width: nat, size: nat, py: nat, px: nat)
    requires size >= 1 && py < height && px < width
    ensures var g := Grid(height, width, size);
            var k := CoverIndex(width, size, py, px);
            && 0 <= k < |g| && Contains(g[k], py, px)
            && forall j :: 0 <= j < |g| && Contains(g[j], py, px) ==> j == k
  {
    CoverIndexHolds(height, width, size, py, px);
    var g := Grid(height, width, size);
    forall j | 0 <= j < |g| && Contains(g[j], py, px)
      ensures j == CoverIndex(width, size, py, px)
    {
      OnlyBlock(height, width, size, py, px, j);
    }
  }

  /** A block of the grid holding the pixel is the one in row `py / size` and column `px / size`. */
  lemma OnlyBlock(height: nat, width: nat, size: nat, py: nat, px: nat, j: nat)
    requires size >= 1 && py < height && px < width
    requires j < |Grid(height, width, size)| && Contains(Grid(height, width, size)[j], py, px)
    ensures j == CoverIndex(width, size, py, px)
  {
    var nx := Blocks(width, size);
    GridAt(height, width, size, j);
    var r, c := j / nx, j % nx;
    GridRowsLen(height, width, size, nx, Blocks(height, size));
    RowCol(j, nx, Blocks(height, size));
    PixelBlock(height, width, size, py, px, r, c);
    assert r == py / size && c == px / size;
  }

  /** The histogram bins for an image's data type: 256 for uint8, 4096 for uint16, else a ValueError. */
  function Bins(dtype: string): Result<nat, DepthError>
  {
    if dtype == "uint8" then Ok(256) else if dtype == "uint16" then Ok(4096) else Err(UnsupportedBitDepth)
  }

  function BlockHists(b: Block, bins: nat): seq<Hist>
  {
    [Hist(b, 0, bins), Hist(b, 1, bins), Hist(b, 2, bins)]
  }

  /** The image processor of one image. */
  class ImageProcessor {
    const height: nat
    const width: nat
    const dtype: string
    var result: map<Key, Entry>
    var gridBlocks: seq<Block>

    constructor(height: nat, width: nat, dtype: string)
      ensures this.height == height && this.width == width && this.dtype == dtype
      ensures result == map[] && gridBlocks == []
    {
      this.height := height;
      this.width := width;
      this.dtype := dtype;
      result := map[];
      gridBlocks := [];
    }

    /** The inner loop of `image_grid`: the blocks of grid row `y`, left to right. */
    method MakeRow(size: nat, nx: nat, y: nat) returns (row: seq<Block>)
      ensures row == GridRow(height, width, size, nx, y)
    {
      row := [];
      var x := 0;
      while x < nx
        invariant 0 <= x <= nx
        invariant row == GridRow(height, width, size, nx, y)[..x]
      {
        var startY := y * size;
        var endY := if (y + 1) * size <= height then (y + 1) * size else height;
        var startX := x * size;
        var endX := if (x + 1) * size <= width then (x + 1) * size else width;
        row := row + [Block(startY, endY, startX, endX)];
        x := x + 1;
      }
    }

    /** `image_grid`: the metadata entry, then the blocks row by row. */
    method ImageGrid(granularity: real)
      modifies this
      ensures var size := BlockSize(height, width, granularity);
              && gridBlocks == Grid(height, width, size)
              && result == old(result)[MetadataKey := Metadata(Blocks(width, size), Blocks(height, size), size, if width < height then "width" else "height")]
    {
      var size := BlockSize(height, width, granularity);
      var ny := height / size + (if height % size != 0 then 1 else 0);
      var nx := width / size + (if width % size != 0 then 1 else 0);
      result := result[MetadataKey := Metadata(nx, ny, size, if width < height then "width" else "height")];
      gridBlocks := [];
      var y := 0;
      while y < ny
        invariant 0 <= y <= ny
        invariant gridBlocks == GridRows(height, width, size, nx, y)
        invariant result == old(result)[MetadataKey := Metadata(nx, ny, size, if width < height then "width" else "height")]
      {
        var row := MakeRow(size, nx, y);
        gridBlocks := gridBlocks + row;
        y := y + 1;
      }
    }

    /** `calculate_hists`: a ValueError for an unsupported data type, else three histograms per block under its index. */
    method CalculateHists() returns (r: Result<nat, DepthError>)
      modifies this
      ensures r == Bins(dtype)
      ensures r.Err? ==> result == old(result)
      ensures r.Ok? ==>
                && (forall k :: k in result <==> k in old(result) || (k.BlockKey? && k.index < |gridBlocks|))
                && (forall i :: 0 <= i < |gridBlocks| ==> result[BlockKey(i)] == Hists(BlockHists(gridBlocks[i], r.value)))
                && (forall k :: k in old(result) && !(k.BlockKey? && k.index < |gridBlocks|) ==> result[k] == old(result)[k])
      ensures gridBlocks == old(gridBlocks)
    {
      r := Bins(dtype);
      if r.Err? {
        return;
      }
      var i := 0;
      while i < |gridBlocks|
        invariant 0 <= i <= |gridBlocks|
        invariant gridBlocks == old(gridBlocks)
        invariant forall k :: k in result <==> k in old(result) || (k.BlockKey? && k.index < i)
        invariant forall j :: 0 <= j < i ==> result[BlockKey(j)] == Hists(BlockHists(gridBlocks[j], r.value))
        invariant forall k :: k in old(result) && !(k.BlockKey? && k.index < i) ==> result[k] == old(result)[k]
      {
        result := result[BlockKey(i) := Hists(BlockHists(gridBlocks[i], r.value))];
        i := i + 1;
      }
    }

    /**
     * `process`: grid, then histograms. On a supported image the result holds the metadata and
     * one histogram triple per block of the grid, and nothing else that was not there before.
     */
    method Process(granularity: real) returns (r: Result<nat, DepthError>)
      modifies this
      ensures var size := BlockSize(height, width, granularity);
              && gridBlocks == Grid(height, width, size)
              && MetadataKey in result
              && result[MetadataKey] == Metadata(Blocks(width, size), Blocks(height, size), size, if width < height then "width" else "height")
              && r == Bins(dtype)
              && (r.Ok? ==>
                    && (forall k :: k in result <==> k in old(result) || k == MetadataKey || (k.BlockKey? && k.index < |gridBlocks|))
                    && forall i :: 0 <= i < |gridBlocks| ==> result[BlockKey(i)] == Hists(BlockHists(gridBlocks[i], r.value)))
    {
      ImageGrid(granularity);
      r := CalculateHists();
    }
  }
}

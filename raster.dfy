/**
 * Canvas pixel data as the 2D context's getImageData and putImageData see it:
 * rows of RGBA pixels, top row first.
 */
module Raster {

  newtype byte = x: int | 0 <= x < 256

  /** One pixel: red, green, blue and alpha, each 0 to 255. */
  datatype Rgba = Rgba(r: byte, g: byte, b: byte, a: byte)

  /** The colour of a freshly sized canvas: transparent black. */
  const Transparent := Rgba(0, 0, 0, 0)

  /** Pixel rows, top row first; the pixel at column x of row y is g[y][x]. */
  type Grid = seq<seq<Rgba>>

  predicate IsGrid(g: Grid, width: nat, height: nat) {
    |g| == height && forall y :: 0 <= y < height ==> |g[y]| == width
  }

  /** A decoded image: its width, its height and its pixels. */
  datatype Bitmap = Bitmap(width: nat, height: nat, pixels: Grid)

  predicate WellFormed(b: Bitmap) {
    IsGrid(b.pixels, b.width, b.height)
  }

  /** A width x height grid of transparent pixels. */
  function BlankGrid(width: nat, height: nat): (g: Grid)
    ensures IsGrid(g, width, height)
    ensures forall y, x :: 0 <= y < height && 0 <= x < width ==> g[y][x] == Transparent
  {
    seq(height, y => seq(width, x => Transparent))
  }

  /** The region [x, x + w) x [y, y + h) lies inside a width x height grid. */
  predicate InBounds(width: nat, height: nat, x: int, y: int, w: int, h: int) {
    0 <= x && 0 <= y && 0 <= w && 0 <= h && x + w <= width && y + h <= height
  }

  /**
   * The w x h region of g whose top left pixel is (x, y): its pixel (i, j) is
   * pixel (x + i, y + j) of g.
   */
  function SubImage(g: Grid, width: nat, height: nat, x: int, y: int, w: nat, h: nat): (r: Grid)
    requires IsGrid(g, width, height) && InBounds(width, height, x, y, w, h)
    ensures IsGrid(r, w, h)
    ensures forall j, i :: 0 <= j < h && 0 <= i < w ==> r[j][i] == g[y + j][x + i]
  {
    seq(h, j requires 0 <= j < h => g[y + j][x .. x + w])
  }

  /** Two grids of the same size with the same pixels are the same grid. */
  lemma GridExtensionality(g: Grid, k: Grid, width: nat, height: nat)
    requires IsGrid(g, width, height) && IsGrid(k, width, height)
    requires forall y, x :: 0 <= y < height && 0 <= x < width ==> g[y][x] == k[y][x]
    ensures g == k
  {
    forall y | 0 <= y < height
      ensures g[y] == k[y]
    {
      assert forall x :: 0 <= x < width ==> g[y][x] == k[y][x];
    }
  }

  /** The region that is the whole grid is the grid itself. */
  lemma SubImageWhole(g: Grid, width: nat, height: nat)
    requires IsGrid(g, width, height)
    ensures SubImage(g, width, height, 0, 0, width, height) == g
  {
    GridExtensionality(SubImage(g, width, height, 0, 0, width, height), g, width, height);
  }

  /** Taking a region of a region is taking one region of the original, with the offsets added. */
  lemma SubImageOfSubImage(g: Grid, width: nat, height: nat,
                           x1: int, y1: int, w1: nat, h1: nat,
                           x2: int, y2: int, w2: nat, h2: nat)
    requires IsGrid(g, width, height) && InBounds(width, height, x1, y1, w1, h1)
    requires InBounds(w1, h1, x2, y2, w2, h2)
    ensures InBounds(width, height, x1 + x2, y1 + y2, w2, h2)
    ensures SubImage(SubImage(g, width, height, x1, y1, w1, h1), w1, h1, x2, y2, w2, h2)
         == SubImage(g, width, height, x1 + x2, y1 + y2, w2, h2)
  {
    var inner := SubImage(g, width, height, x1, y1, w1, h1);
    var twice := SubImage(inner, w1, h1, x2, y2, w2, h2);
    var once := SubImage(g, width, height, x1 + x2, y1 + y2, w2, h2);
    forall j, i | 0 <= j < h2 && 0 <= i < w2
      ensures twice[j][i] == once[j][i]
    {
      assert twice[j][i] == inner[y2 + j][x2 + i];
      assert inner[y2 + j][x2 + i] == g[y1 + (y2 + j)][x1 + (x2 + i)];
    }
    GridExtensionality(twice, once, w2, h2);
  }
}

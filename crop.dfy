/**
 * The cropping component of src/imageViewer/image-viewer-crop.tsx: an image
 * uploaded from a file is drawn onto a canvas of its size; a mouse drag over
 * the canvas selects a rectangle, shown as an overlay while it is chosen; the
 * crop button cuts the canvas down to the selected rectangle.
 *
 * The canvas pixel buffer is a two-dimensional array, indexed [row, column].
 * Each handler runs to completion and its state updates are applied when it
 * returns.
 */
module Crop {
  import opened Wrappers
  import opened Raster
  import opened NumberText

  /** A pointer position relative to the canvas's top left corner, in CSS pixels. */
  datatype Position = Position(x: int, y: int)

  /** A file chosen in the file input: its MIME type and, when the browser can decode it, the image. */
  datatype UploadFile = UploadFile(mimeType: string, decoded: Option<Bitmap>)

  /** A rectangle given by its top left corner, width and height. */
  datatype Region = Region(x: int, y: int, w: int, h: int)

  /** The overlay's CSS position and size, each a length in pixels such as "12px". */
  datatype RectStyle = RectStyle(left: string, top: string, width: string, height: string)

  predicate StartsWith(s: string, prefix: string) {
    |prefix| <= |s| && s[..|prefix|] == prefix
  }

  /** The upload guard: only files whose MIME type starts with "image/" are read. */
  predicate IsImageType(mimeType: string) {
    StartsWith(mimeType, "image/")
  }

  /** The rectangle from cropStart to cropEnd, as both the overlay and the crop compute it. */
  function CropRegion(start: Position, end: Position): Region {
    Region(start.x, start.y, end.x - start.x, end.y - start.y)
  }

  /** `${n}px` */
  function Px(n: int): string {
    IntText(n) + "px"
  }

  /** The number in a CSS pixel length written as Px writes it. */
  function ReadPx(s: string): Option<int> {
    match ReadInt(s)
    case None => None
    case Some((n, rest)) => if rest == "px" then Some(n) else None
  }

  lemma ReadPxOfPx(n: int)
    ensures ReadPx(Px(n)) == Some(n)
  {
    ReadIntText(n, "px");
  }

  /** getCropRectStyle: the overlay starts at cropStart and spans cropEnd - cropStart. */
  function CropRectStyle(start: Position, end: Position): RectStyle {
    RectStyle(Px(start.x), Px(start.y), Px(end.x - start.x), Px(end.y - start.y))
  }

  /** The overlay shows exactly the rectangle the crop cuts out: same origin, same width, same height. */
  lemma PreviewMatchesCrop(start: Position, end: Position)
    ensures var style := CropRectStyle(start, end);
            var r := CropRegion(start, end);
            && ReadPx(style.left) == Some(r.x) && ReadPx(style.top) == Some(r.y)
            && ReadPx(style.width) == Some(r.w) && ReadPx(style.height) == Some(r.h)
  {
    ReadPxOfPx(start.x);
    ReadPxOfPx(start.y);
    ReadPxOfPx(end.x - start.x);
    ReadPxOfPx(end.y - start.y);
  }

  /** The pixels of a canvas buffer, row by row. */
  function GridOf(a: array2<Rgba>): (g: Grid)
    reads a
    ensures IsGrid(g, a.Length1, a.Length0)
    ensures forall y, x :: 0 <= y < a.Length0 && 0 <= x < a.Length1 ==> g[y][x] == a[y, x]
  {
    seq(a.Length0, y requires 0 <= y < a.Length0 reads a =>
      seq(a.Length1, x requires 0 <= x < a.Length1 reads a => a[y, x]))
  }

  /**
   * base with patch written over its top left corner: inside the patch the
   * patch's pixels, elsewhere base's.
   */
  function Pasted(base: Grid, width: nat, height: nat, patch: Grid, w: nat, h: nat): (g: Grid)
    requires IsGrid(base, width, height) && IsGrid(patch, w, h) && w <= width && h <= height
    ensures IsGrid(g, width, height)
  {
    seq(height, y requires 0 <= y < height =>
      seq(width, x requires 0 <= x < width => if y < h && x < w then patch[y][x] else base[y][x]))
  }

  /** A patch as large as the canvas replaces every pixel. */
  lemma PastedCovering(base: Grid, width: nat, height: nat, patch: Grid)
    requires IsGrid(base, width, height) && IsGrid(patch, width, height)
    ensures Pasted(base, width, height, patch, width, height) == patch
  {
    GridExtensionality(Pasted(base, width, height, patch, width, height), patch, width, height);
  }

  class CropViewer {
    /** The canvas pixel buffer: canvas[y, x] is the pixel in row y, column x. */
    var canvas: array2<Rgba>
    /** The last image loaded from an upload. */
    var image: Option<Bitmap>
    var isDragging: bool
    var cropStart: Position
    var cropEnd: Position
    var showCropRect: bool

    function Width(): nat
      reads this
    {
      canvas.Length1
    }

    function Height(): nat
      reads this
    {
      canvas.Length0
    }

    function Pixels(): Grid
      reads this, canvas
    {
      GridOf(canvas)
    }

    /** The initial state; the canvas element starts at the HTML default size of 300 x 150, transparent. */
    constructor()
      ensures fresh(canvas)
      ensures Width() == 300 && Height() == 150 && Pixels() == BlankGrid(300, 150)
      ensures image == None && !isDragging && !showCropRect
      ensures cropStart == Position(0, 0) && cropEnd == Position(0, 0)
    {
      canvas := new Rgba[150, 300]((y, x) => Transparent);
      image := None;
      isDragging := false;
      cropStart := Position(0, 0);
      cropEnd := Position(0, 0);
      showCropRect := false;
      new;
      GridExtensionality(Pixels(), BlankGrid(300, 150), 300, 150);
    }

    /**
     * handleImageUpload: the first chosen file is read only when its MIME type
     * starts with "image/"; once it has decoded, the canvas takes the image's
     * size and the image is drawn at (0, 0).
     */
    method HandleImageUpload(files: seq<UploadFile>)
      requires |files| > 0 && files[0].decoded.Some? ==> WellFormed(files[0].decoded.value)
      modifies this
      ensures var accepted := |files| > 0 && IsImageType(files[0].mimeType) && files[0].decoded.Some?;
              && (accepted ==>
                    var bmp := files[0].decoded.value;
                    && image == Some(bmp) && fresh(canvas)
                    && Width() == bmp.width && Height() == bmp.height && Pixels() == bmp.pixels)
              && (!accepted ==> image == old(image) && canvas == old(canvas) && Pixels() == old(Pixels()))
      ensures isDragging == old(isDragging) && cropStart == old(cropStart) && cropEnd == old(cropEnd)
      ensures showCropRect == old(showCropRect)
    {
      if |files| > 0 && IsImageType(files[0].mimeType) {
        var file := files[0];
        if file.decoded.Some? {
          var bmp := file.decoded.value;
          image := Some(bmp);
          canvas := new Rgba[bmp.height, bmp.width]((y, x) => Transparent);
          DrawBitmap(bmp);
        }
      }
    }

    /**
     * drawImage(img, 0, 0) on a canvas of the image's size that was just
     * cleared: every pixel becomes the image's pixel.
     */
    method DrawBitmap(bmp: Bitmap)
      requires WellFormed(bmp) && Height() == bmp.height && Width() == bmp.width
      modifies canvas
      ensures Pixels() == bmp.pixels
    {
      for y := 0 to bmp.height
        invariant forall j, i :: 0 <= j < y && 0 <= i < bmp.width ==> canvas[j, i] == bmp.pixels[j][i]
      {
        for x := 0 to bmp.width
          invariant forall j, i :: 0 <= j < y && 0 <= i < bmp.width ==> canvas[j, i] == bmp.pixels[j][i]
          invariant forall i :: 0 <= i < x ==> canvas[y, i] == bmp.pixels[y][i]
        {
          canvas[y, x] := bmp.pixels[y][x];
        }
      }
      GridExtensionality(Pixels(), bmp.pixels, bmp.width, bmp.height);
    }

    /** startCrop: the drag starts at the pointer; the end is reset to (0, 0) and the overlay is shown. */
    method StartCrop(clientX: int, clientY: int, canvasLeft: int, canvasTop: int)
      modifies this
      ensures cropStart == Position(clientX - canvasLeft, clientY - canvasTop)
      ensures cropEnd == Position(0, 0) && isDragging && showCropRect
      ensures image == old(image) && canvas == old(canvas)
    {
      cropStart := Position(clientX - canvasLeft, clientY - canvasTop);
      cropEnd := Position(0, 0);
      isDragging := true;
      showCropRect := true;
    }

    /** updateCrop: while dragging, the end follows the pointer; otherwise nothing changes. */
    method UpdateCrop(clientX: int, clientY: int, canvasLeft: int, canvasTop: int)
      modifies this
      ensures isDragging ==> cropEnd == Position(clientX - canvasLeft, clientY - canvasTop)
      ensures !isDragging ==> cropEnd == old(cropEnd)
      ensures isDragging == old(isDragging) && cropStart == old(cropStart) && showCropRect == old(showCropRect)
      ensures image == old(image) && canvas == old(canvas)
    {
      if isDragging {
        cropEnd := Position(clientX - canvasLeft, clientY - canvasTop);
      }
    }

    /** endCrop (mouse up or leaving the canvas): the drag ends; the selection and the overlay stay. */
    method EndCrop()
      modifies this
      ensures !isDragging
      ensures cropStart == old(cropStart) && cropEnd == old(cropEnd) && showCropRect == old(showCropRect)
      ensures image == old(image) && canvas == old(canvas)
    {
      isDragging := false;
    }

    /** getCropRectStyle for the current selection. */
    function GetCropRectStyle(): (style: RectStyle)
      reads this
      ensures ReadPx(style.left) == Some(cropStart.x) && ReadPx(style.top) == Some(cropStart.y)
      ensures ReadPx(style.width) == Some(CropRegion(cropStart, cropEnd).w)
      ensures ReadPx(style.height) == Some(CropRegion(cropStart, cropEnd).h)
    {
      PreviewMatchesCrop(cropStart, cropEnd);
      CropRectStyle(cropStart, cropEnd)
    }

    /** getImageData(x, y, w, h): a copy of the region's pixels in a new buffer. */
    method GetImageData(x: int, y: int, w: nat, h: nat) returns (data: array2<Rgba>)
      requires InBounds(Width(), Height(), x, y, w, h)
      ensures fresh(data) && data.Length0 == h && data.Length1 == w
      ensures GridOf(data) == SubImage(Pixels(), Width(), Height(), x, y, w, h)
    {
      data := new Rgba[h, w]((j, i) => Transparent);
      for j := 0 to h
        invariant forall jj, ii :: 0 <= jj < j && 0 <= ii < w ==> data[jj, ii] == canvas[y + jj, x + ii]
      {
        for i := 0 to w
          invariant forall jj, ii :: 0 <= jj < j && 0 <= ii < w ==> data[jj, ii] == canvas[y + jj, x + ii]
          invariant forall ii :: 0 <= ii < i ==> data[j, ii] == canvas[y + j, x + ii]
        {
          data[j, i] := canvas[y + j, x + i];
        }
      }
      GridExtensionality(GridOf(data), SubImage(Pixels(), Width(), Height(), x, y, w, h), w, h);
    }

    /** putImageData(data, 0, 0): the data's pixels replace the canvas's from the top left corner. */
    method PutImageData(data: array2<Rgba>)
      requires data != canvas
      requires data.Length0 <= Height() && data.Length1 <= Width()
      modifies canvas
      ensures Pixels() == Pasted(old(Pixels()), Width(), Height(), GridOf(data), data.Length1, data.Length0)
    {
      ghost var base := Pixels();
      for j := 0 to data.Length0
        invariant forall y, x :: 0 <= y < Height() && 0 <= x < Width() ==>
                    canvas[y, x] == (if y < j && x < data.Length1 then data[y, x] else base[y][x])
      {
        for i := 0 to data.Length1
          invariant forall y, x :: 0 <= y < Height() && 0 <= x < Width() ==>
                      canvas[y, x] == (if (y < j || (y == j && x < i)) && x < data.Length1 then data[y, x] else base[y][x])
        {
          canvas[j, i] := data[j, i];
        }
      }
      GridExtensionality(Pixels(), Pasted(base, Width(), Height(), GridOf(data), data.Length1, data.Length0),
                         Width(), Height());
    }

    /**
     * performCrop: with an image loaded, copy the selected region, resize the
     * canvas to it (which clears it) and put the copy back at the top left
     * corner, then hide the overlay. Without an image nothing happens.
     */
    method PerformCrop()
      requires image.Some? ==>
                 var r := CropRegion(cropStart, cropEnd);
                 r.w > 0 && r.h > 0 && InBounds(Width(), Height(), r.x, r.y, r.w, r.h)
      modifies this
      ensures old(image).Some? ==>
                var r := CropRegion(old(cropStart), old(cropEnd));
                && fresh(canvas) && Width() == r.w && Height() == r.h
                && Pixels() == SubImage(old(Pixels()), old(Width()), old(Height()), r.x, r.y, r.w, r.h)
                && !showCropRect
      ensures old(image).None? ==> canvas == old(canvas) && Pixels() == old(Pixels()) && showCropRect == old(showCropRect)
      ensures image == old(image) && isDragging == old(isDragging)
      ensures cropStart == old(cropStart) && cropEnd == old(cropEnd)
    {
      if image.Some? {
        var r := CropRegion(cropStart, cropEnd);
        var cropped := GetImageData(r.x, r.y, r.w, r.h);
        canvas := new Rgba[r.h, r.w]((y, x) => Transparent);
        GridExtensionality(Pixels(), BlankGrid(r.w, r.h), r.w, r.h);
        PutImageData(cropped);
        PastedCovering(BlankGrid(r.w, r.h), r.w, r.h, GridOf(cropped));
        showCropRect := false;
      }
    }
  }

  /** Cropping a W x H canvas from (0, 0) to (W, H) leaves its pixels as they were. */
  lemma WholeCropKeepsPixels(g: Grid, width: nat, height: nat)
    requires IsGrid(g, width, height)
    ensures var r := CropRegion(Position(0, 0), Position(width, height));
            && r == Region(0, 0, width, height)
            && SubImage(g, width, height, r.x, r.y, r.w, r.h) == g
  {
    SubImageWhole(g, width, height);
  }
}

/**
 * The ImageViewer component of src/imageViewer/image-viewer.tsx as an object:
 * its state variables, the canvas element's size and the state of its 2D
 * context, and the handlers that update them.
 *
 * Each handler runs to completion. React applies a handler's state updates
 * when the handler returns, so code inside a handler still reads the values
 * from before it; the methods assign the fields at the end, after the calls
 * that read the old values. The redraw effect, which runs after every change
 * of the state it depends on, is the last step of each handler.
 */
module Viewer {
  import opened Wrappers
  import opened Geometry
  import opened Render

  /** Zooming in or out keeps a positive scale positive. */
  lemma ZoomKeepsSign(scale: real)
    ensures scale > 0.0 ==> scale * 1.1 > 0.0 && scale / 1.1 > 0.0
    ensures scale >= 0.0 ==> scale * 1.1 >= 0.0 && scale / 1.1 >= 0.0
  {
  }

  class ImageViewer {
    var scale: real
    var rotation: int
    var flipH: real
    var flipV: real
    /** The natural size of the loaded image, once it has loaded. */
    var image: Option<Extent>
    var brightness: int
    var saturation: int
    var contrast: int
    var hue: int
    /** The canvas element's width and height. */
    var canvas: Extent
    /** The canvas's 2D context. */
    var context: Context

    function CurrentView(): View
      reads this
    {
      View(scale, rotation, flipH, flipV)
    }

    function CurrentFilters(): Filters
      reads this
    {
      Filters(brightness, saturation, contrast, hue)
    }

    /**
     * The state invariant apart from what is on screen: a non-negative scale,
     * a quadrant rotation, flip signs of +-1, a context between draws, and a
     * canvas sized for the loaded image at the current scale and rotation.
     */
    predicate Consistent()
      reads this
    {
      && scale >= 0.0 && IsQuadrant(rotation) && IsFlip(flipH) && IsFlip(flipV)
      && context.transform == [] && context.saved == []
      && (image.Some? ==>
            && image.value.width > 0.0 && image.value.height > 0.0
            && canvas == CanvasExtent(image.value.width, image.value.height, scale, rotation))
    }

    /** Consistent, and once an image has loaded the canvas shows it through the current view and filters. */
    ghost predicate Valid()
      reads this
    {
      Consistent() && (image.Some? ==> Shows(context, canvas, image.value, CurrentView(), FilterText(CurrentFilters())))
    }

    /** The initial state; the canvas element starts at the HTML default size of 300 x 150. */
    constructor()
      ensures Valid()
      ensures scale == 1.0 && rotation == 0 && flipH == 1.0 && flipV == 1.0 && image == None
      ensures CurrentFilters() == InitialFilters
      ensures canvas == Extent(300.0, 150.0) && context == Blank
    {
      scale := 1.0;
      rotation := 0;
      flipH := 1.0;
      flipV := 1.0;
      image := None;
      brightness := 100;
      saturation := 100;
      contrast := 100;
      hue := 0;
      canvas := Extent(300.0, 150.0);
      context := Blank;
    }

    /** drawImage: the fixed sequence of context calls, when an image has loaded. */
    method DrawImage()
      requires IsQuadrant(rotation)
      modifies this`context
      ensures image.None? ==> context == old(context)
      ensures image.Some? ==> context == Run(old(context), DrawOps(canvas, image.value, CurrentView(), FilterText(CurrentFilters())))
    {
      if image.Some? {
        var ops := DrawOps(canvas, image.value, CurrentView(), FilterText(CurrentFilters()));
        RunEight(context, ops);
        var ctx := context;
        ctx := Step(ctx, ops[0]);  // clearRect over the whole canvas
        ctx := Step(ctx, ops[1]);  // save
        ctx := Step(ctx, ops[2]);  // filter
        ctx := Step(ctx, ops[3]);  // translate to the canvas centre
        ctx := Step(ctx, ops[4]);  // scale with the flip signs
        ctx := Step(ctx, ops[5]);  // rotate
        ctx := Step(ctx, ops[6]);  // drawImage centred on the origin
        ctx := Step(ctx, ops[7]);  // restore
        context := ctx;
      }
    }

    /**
     * setCanvasSize: size the canvas for the image at the given scale and
     * rotation (which resets the context and blanks the bitmap), then draw with
     * the state as it is now.
     */
    method SetCanvasSize(img: Extent, newScale: real, newRotation: int)
      requires IsQuadrant(rotation)
      modifies this`canvas, this`context
      ensures canvas == CanvasExtent(img.width, img.height, newScale, newRotation)
      ensures image.None? ==> context == Blank
      ensures image.Some? ==> context == Run(Blank, DrawOps(canvas, image.value, CurrentView(), FilterText(CurrentFilters())))
      ensures context.transform == [] && context.saved == []
    {
      canvas := CanvasExtent(img.width, img.height, newScale, newRotation);
      context := Blank;
      DrawImage();
      if image.Some? {
        DrawFrame(Blank, canvas, image.value, CurrentView(), FilterText(CurrentFilters()));
      }
    }

    /** The redraw effect: draw whenever an image has loaded. */
    method Redraw()
      requires Consistent()
      modifies this`context
      ensures Valid()
      ensures image.None? ==> context == old(context)
      ensures image.Some? ==> context == Run(old(context), DrawOps(canvas, image.value, CurrentView(), FilterText(CurrentFilters())))
    {
      if image.Some? {
        DrawFrame(context, canvas, image.value, CurrentView(), FilterText(CurrentFilters()));
      }
      DrawImage();
    }

    /**
     * The image has loaded (it is loaded once, when the component mounts):
     * show it at the fit-to-container scale on a canvas sized for it.
     */
    method OnImageLoad(img: Extent, containerW: real, containerH: real)
      requires Consistent() && image.None?
      requires img.width > 0.0 && img.height > 0.0
      requires containerW >= 0.0 && containerH >= 0.0
      modifies this
      ensures Valid()
      ensures image == Some(img) && scale == FitScale(containerW, containerH, img.width, img.height)
      ensures canvas == CanvasExtent(img.width, img.height, scale, rotation)
      ensures rotation == old(rotation) && flipH == old(flipH) && flipV == old(flipV)
      ensures CurrentFilters() == old(CurrentFilters())
    {
      var newScale := FitScale(containerW, containerH, img.width, img.height);
      SetCanvasSize(img, newScale, rotation);
      assert context == Blank;
      image := Some(img);
      scale := newScale;
      assert Consistent();
      Redraw();
    }

    /** zoomIn: scale up by 10%, and resize the canvas if an image has loaded. */
    method ZoomIn()
      requires Consistent()
      modifies this
      ensures Valid()
      ensures scale == old(scale) * 1.1
      ensures old(scale) > 0.0 ==> scale > 0.0
      ensures image.Some? ==> canvas == CanvasExtent(image.value.width, image.value.height, scale, rotation)
      ensures image.None? ==> canvas == old(canvas)
      ensures image == old(image) && rotation == old(rotation) && flipH == old(flipH) && flipV == old(flipV)
      ensures CurrentFilters() == old(CurrentFilters())
    {
      var newScale := scale * 1.1;
      ZoomKeepsSign(scale);
      if image.Some? {
        SetCanvasSize(image.value, newScale, rotation);
      }
      scale := newScale;
      Redraw();
    }

    /** zoomOut: scale down by a factor of 1.1, and resize the canvas if an image has loaded. */
    method ZoomOut()
      requires Consistent()
      modifies this
      ensures Valid()
      ensures scale == old(scale) / 1.1
      ensures old(scale) > 0.0 ==> scale > 0.0
      ensures image.Some? ==> canvas == CanvasExtent(image.value.width, image.value.height, scale, rotation)
      ensures image.None? ==> canvas == old(canvas)
      ensures image == old(image) && rotation == old(rotation) && flipH == old(flipH) && flipV == old(flipV)
      ensures CurrentFilters() == old(CurrentFilters())
    {
      var newScale := scale / 1.1;
      ZoomKeepsSign(scale);
      if image.Some? {
        SetCanvasSize(image.value, newScale, rotation);
      }
      scale := newScale;
      Redraw();
    }

    /** rotate: a quarter turn clockwise; with an image the canvas swaps its width and height. */
    method Rotate()
      requires Consistent()
      modifies this
      ensures Valid()
      ensures rotation == NextRotation(old(rotation)) && rotation != old(rotation)
      ensures image.Some? ==> canvas == Swap(old(canvas))
      ensures image.None? ==> canvas == old(canvas)
      ensures image == old(image) && scale == old(scale) && flipH == old(flipH) && flipV == old(flipV)
      ensures CurrentFilters() == old(CurrentFilters())
    {
      var newRotation := JsRem(rotation + 90, 360);
      if image.Some? {
        ExtentUnderRotation(image.value.width, image.value.height, scale, rotation);
        SetCanvasSize(image.value, scale, newRotation);
      }
      rotation := newRotation;
      Redraw();
    }

    /** flipHorizontal: negate the horizontal flip sign; the canvas keeps its size. */
    method FlipHorizontal()
      requires Consistent()
      modifies this
      ensures Valid()
      ensures flipH == -old(flipH) && IsFlip(flipH)
      ensures canvas == old(canvas)
      ensures image == old(image) && scale == old(scale) && rotation == old(rotation) && flipV == old(flipV)
      ensures CurrentFilters() == old(CurrentFilters())
    {
      flipH := flipH * -1.0;
      Redraw();
    }

    /** flipVertical: negate the vertical flip sign; the canvas keeps its size. */
    method FlipVertical()
      requires Consistent()
      modifies this
      ensures Valid()
      ensures flipV == -old(flipV) && IsFlip(flipV)
      ensures canvas == old(canvas)
      ensures image == old(image) && scale == old(scale) && rotation == old(rotation) && flipH == old(flipH)
      ensures CurrentFilters() == old(CurrentFilters())
    {
      flipV := flipV * -1.0;
      Redraw();
    }

    /** The brightness slider (0 to 200 percent). */
    method SetBrightness(value: int)
      requires Consistent()
      modifies this
      ensures Valid()
      ensures CurrentFilters() == old(CurrentFilters()).(brightness := value)
      ensures CurrentView() == old(CurrentView()) && image == old(image) && canvas == old(canvas)
    {
      brightness := value;
      Redraw();
    }

    /** The saturation slider (0 to 200 percent). */
    method SetSaturation(value: int)
      requires Consistent()
      modifies this
      ensures Valid()
      ensures CurrentFilters() == old(CurrentFilters()).(saturation := value)
      ensures CurrentView() == old(CurrentView()) && image == old(image) && canvas == old(canvas)
    {
      saturation := value;
      Redraw();
    }

    /** The contrast slider (0 to 200 percent). */
    method SetContrast(value: int)
      requires Consistent()
      modifies this
      ensures Valid()
      ensures CurrentFilters() == old(CurrentFilters()).(contrast := value)
      ensures CurrentView() == old(CurrentView()) && image == old(image) && canvas == old(canvas)
    {
      contrast := value;
      Redraw();
    }

    /** The hue slider (-180 to 180 degrees). */
    method SetHue(value: int)
      requires Consistent()
      modifies this
      ensures Valid()
      ensures CurrentFilters() == old(CurrentFilters()).(hue := value)
      ensures CurrentView() == old(CurrentView()) && image == old(image) && canvas == old(canvas)
    {
      hue := value;
      Redraw();
    }
  }
}

# Image viewer and image cropper, modelled in Dafny

The repository has two independent React canvas components.

- **ImageViewer** (`src/imageViewer/image-viewer.tsx`) shows one image on a
  canvas. Its state is a zoom scale, a rotation in quarter turns, and two flip
  signs. It also holds four filter sliders: brightness, saturation, contrast
  and hue.
  - When the image loads, the viewer picks the fit-to-container scale
    `min(cw / iw, ch / ih, 1)`.
  - The canvas is sized to the scaled image, with width and height swapped at
    90 and 270 degrees.
  - Every draw runs the same sequence of 2D-context calls: clear, save, set the
    filter, translate to the centre, scale with the flip signs, rotate, draw
    the image centred, restore.
- **Cropper** (`src/imageViewer/image-viewer-crop.tsx`) loads an uploaded
  image onto a canvas of the image's size.
  - A mouse drag selects a rectangle, which is shown as an overlay.
  - The crop button copies the selected pixels, shrinks the canvas to the
    selection and writes the copy back at the top left.

The Dafny modules follow that split:

| module | file | contents |
|---|---|---|
| `Wrappers` | `wrappers.dfy` | `Option` |
| `NumberText` | `text.dfy` | decimal text of integers (`${n}` for |n| < 10^21) and a reader for it |
| `Geometry` | `geometry.dfy` | fit scale, canvas extent, JavaScript `%`, quadrant rotation, and where the draw transform puts each image point |
| `Render` | `render.dfy` | the CSS filter text, affine transforms, the 2D context as a state machine over its calls, and the draw sequence |
| `Viewer` | `viewer.dfy` | `class ImageViewer`: the component's state and its handlers |
| `Raster` | `raster.dfy` | RGBA pixels, pixel grids, sub-images |
| `Crop` | `crop.dfy` | `class CropViewer`: the selection state machine, the canvas pixel buffer as an `array2`, and the crop |

Modelling choices:

- Scale, extents and points are `real`. Rotation is an `int` in degrees, and
  `%` is JavaScript's truncating remainder (`JsRem`).
- React applies a handler's `setX` calls only after the handler returns. So
  each method reads the old fields and assigns the new ones at the end.
- The redraw effect runs as the last step of every handler
  (`ImageViewer.Redraw`), even when no dependency changed. `setCanvasSize` draws with the state from before
  the handler, just as the code's closure does. The redraw that follows then
  draws the new state.
- Resizing a canvas resets its context and blanks its bitmap (`Blank`).
- The viewer's context is modelled by what the calls touch: the transform (as
  the list of elementary transforms multiplied onto the identity), the filter,
  the save stack, and the list of paint operations since the last reset.
- What is on screen is the list of paint operations after the last clear of
  the whole canvas. `Shows` says that this list is exactly one draw of the
  image, with the current filter text and the current view's point mapping.
- The cropper's canvas is a real pixel buffer (`array2<Rgba>`, indexed
  `[row, column]`). `getImageData` and `putImageData` are copy loops over it.

## Model

| member | source | states |
|---|---|---|
| Geometry.Min3 | src/imageViewer/image-viewer.tsx:59 | `Math.min` of three values is a lower bound of all three and equals one of them |
| Geometry.FitScale | src/imageViewer/image-viewer.tsx:57-59 | definition: `Math.min(cw / iw, ch / ih, 1)` (properties in FitScaleBounds and FitScaleIsLargest) |
| Geometry.FitScaleBounds | src/imageViewer/image-viewer.tsx:57-59 | the fit scale lies in [0, 1] and the scaled image fits the container; one bound is met exactly; the scale is 1 exactly when the image already fits; it is positive exactly when the container has area |
| Geometry.FitScaleIsLargest | src/imageViewer/image-viewer.tsx:57-59 | every scale up to 1 at which the image fits the container is at most the fit scale, so the fit scale is the largest such scale |
| Geometry.FitScaleExample | src/imageViewer/image-viewer.tsx:57-59 | an 800 x 600 image in a 400 x 300 container is shown at scale 0.5 on a 400 x 300 canvas |
| Geometry.JsRem | src/imageViewer/image-viewer.tsx:118 | JavaScript `%`: the dividend is quotient times divisor plus remainder, and the remainder is smaller than the divisor and has the dividend's sign |
| Geometry.NextRotation | src/imageViewer/image-viewer.tsx:118 | `(rotation + 90) % 360` keeps a quadrant angle a quadrant angle and always changes it |
| Geometry.RotationsFromZero | src/imageViewer/image-viewer.tsx:118 | starting from 0, after n presses the rotation is `90 * (n mod 4)`, so it is always one of 0, 90, 180, 270 |
| Geometry.NextQuadrant | src/imageViewer/image-viewer.tsx:118 | one press moves quadrant k to quadrant k + 1, with 270 wrapping to 0 |
| Geometry.FourRotationsCycle | src/imageViewer/image-viewer.tsx:117-123 | four presses bring any quadrant back to itself, and one, two or three presses never do |
| Geometry.CanvasExtent | src/imageViewer/image-viewer.tsx:76-78 | definition: the scaled image size, with width and height swapped at 90 and 270 degrees (properties in ExtentSwappedIffRotated and ExtentUnderRotation) |
| Geometry.ExtentSwappedIffRotated | src/imageViewer/image-viewer.tsx:76-78 | for a non-square image at a positive scale, the canvas is the scaled image with width and height swapped if and only if the rotation is 90 or 270 |
| Geometry.ExtentUnderRotation | src/imageViewer/image-viewer.tsx:117-123 | one rotation swaps the canvas width and height; four rotations restore the canvas extent |
| Geometry.RotatePointIsRotationMatrix | src/imageViewer/image-viewer.tsx:93 | the per-quadrant rotation is the rotation matrix [cos -sin; sin cos] for `rotation * pi / 180` |
| Geometry.MapPoint | src/imageViewer/image-viewer.tsx:91-94 | definition: an image point relative to the image centre, rotated, scaled with the flip signs and moved to the canvas centre (properties in UnmapAfterMap, MapAfterUnmap, CentreToCentre, CornersToCorners and ImageFillsCanvas; Render.DrawPlacesImage ties it to the context calls) |
| Geometry.InverseRotation | src/imageViewer/image-viewer.tsx:93 | the inverse of a quadrant angle is a quadrant angle that adds up with it to a full turn |
| Geometry.RotateBack | src/imageViewer/image-viewer.tsx:93 | rotating by an angle and by its inverse, in either order, returns the point |
| Geometry.StretchBack | src/imageViewer/image-viewer.tsx:92 | scaling by non-zero factors and by their reciprocals, in either order, returns the point |
| Geometry.OffsetBack | src/imageViewer/image-viewer.tsx:91-94 | moving a point to a centre and back, in either order, returns the point |
| Geometry.UnmapAfterMap | src/imageViewer/image-viewer.tsx:91-94 | for every view with positive scale, the draw transform is injective: unmapping a drawn point gives back the image point |
| Geometry.MapAfterUnmap | src/imageViewer/image-viewer.tsx:91-94 | for every view with positive scale, the draw transform is onto: every canvas point is the image of its unmapped point |
| Geometry.CentreToCentre | src/imageViewer/image-viewer.tsx:91-94 | the image centre is drawn on the canvas centre for every scale, rotation and flip |
| Geometry.CornersToCorners | src/imageViewer/image-viewer.tsx:76-94 | on the canvas sized by setCanvasSize, an image point is drawn on a canvas corner exactly when it is an image corner, for every quadrant and flip combination |
| Geometry.ImageFillsCanvas | src/imageViewer/image-viewer.tsx:76-94 | an image point is drawn inside the canvas exactly when it is inside the image, so the image covers the canvas and nothing is cut off |
| Geometry.FlipHorizontalMirrors | src/imageViewer/image-viewer.tsx:125-127 | negating flipH mirrors every drawn point about the canvas's vertical centre line |
| Geometry.FlipVerticalMirrors | src/imageViewer/image-viewer.tsx:129-131 | negating flipV mirrors every drawn point about the canvas's horizontal centre line |
| NumberText.ReadIntText | src/imageViewer/image-viewer.tsx:90 | the decimal text of any integer, followed by text that does not start with a digit, is read back as that integer, leaving that text |
| NumberText.IntTextInjective | src/imageViewer/image-viewer.tsx:90 | different integers have different decimal texts |
| NumberText.ExpectLiteral | src/imageViewer/image-viewer.tsx:90 | a literal prefix is read off and the rest is returned |
| Render.FilterFunctions | src/imageViewer/image-viewer.tsx:90 | the filter has four functions, and no unit starts with a digit, so each amount can be read back |
| Render.FilterFunctionsOrder | src/imageViewer/image-viewer.tsx:90 | the functions are brightness, saturate, contrast and hue-rotate, in this order, with units %, %, % and deg, and carry the brightness, saturation, contrast and hue values in this order |
| Render.FilterText | src/imageViewer/image-viewer.tsx:90 | definition: the four filter functions joined by single spaces (properties in ParseFilterTextRoundTrip and FilterTextInjective) |
| Render.ReadFunctionText | src/imageViewer/image-viewer.tsx:90 | one filter function's text `name(amount unit)` is read back as its amount |
| Render.ReadFunctionsText | src/imageViewer/image-viewer.tsx:90 | a space-separated list of filter functions is read back, against its names and units, as its list of amounts |
| Render.ParseFilterTextRoundTrip | src/imageViewer/image-viewer.tsx:90 | the filter text determines all four slider values in order: parsing it gives them back |
| Render.FilterTextInjective | src/imageViewer/image-viewer.tsx:90 | different slider values always give different filter texts |
| Render.ApplyCompose | src/imageViewer/image-viewer.tsx:91-93 | applying the product of two canvas transforms is applying them one after the other |
| Render.ApplyTranslation | src/imageViewer/image-viewer.tsx:91 | `translate(x, y)` moves every point by (x, y) |
| Render.ApplyScaling | src/imageViewer/image-viewer.tsx:92 | `scale(x, y)` stretches the axes by x and y |
| Render.ApplyRotation | src/imageViewer/image-viewer.tsx:93 | `rotate` by a quadrant angle is the per-quadrant rotation |
| Render.MatrixApplies | src/imageViewer/image-viewer.tsx:91-93 | the context's matrix moves every point where its calls, applied one by one (last call first), move it |
| Render.Visible | src/imageViewer/image-viewer.tsx:88 | what is on screen is a suffix of the paint operations with no full-canvas clear in it |
| Render.VisibleAfterLastClear | src/imageViewer/image-viewer.tsx:88 | the visible suffix is the longest such suffix: the paint just before it, if any, clears the whole canvas |
| Render.Step | src/imageViewer/image-viewer.tsx:88-95 | definition: the effect of one context call (clearRect and drawImage paint under the current transform, save pushes and restore pops the transform and filter, translate, scale and rotate append to the transform) |
| Render.Run | src/imageViewer/image-viewer.tsx:88-95 | definition: the calls run one after the other (RunAppend: running two sequences in turn is running their concatenation) |
| Render.DrawOps | src/imageViewer/image-viewer.tsx:88-95 | the draw sequence only rotates by quadrant angles |
| Render.RunAppend | src/imageViewer/image-viewer.tsx:88-95 | running two call sequences one after the other is running their concatenation |
| Render.DrawOpsState | src/imageViewer/image-viewer.tsx:88-95 | from the identity, the draw sequence leaves the transform, filter and save stack as they were, and adds one full-canvas clear and one draw under translate * scale * rotate with the filter text |
| Render.DrawAndRestoreSteps | src/imageViewer/image-viewer.tsx:94-95 | drawing and then restoring records the draw and returns to the saved transform and filter |
| Render.TransformSteps | src/imageViewer/image-viewer.tsx:91-93 | translate, scale and rotate from the identity build the draw transform |
| Render.DrawTransform | src/imageViewer/image-viewer.tsx:91-93 | definition: translate to the canvas centre, scale with the flip signs, rotate (properties in DrawMatrix and DrawTransformSteps) |
| Render.DrawMatrix | src/imageViewer/image-viewer.tsx:91-93 | the matrix in force at drawImage is (flipH·s·cos, flipV·s·sin, −flipH·s·sin, flipV·s·cos, cw/2, ch/2) |
| Render.DrawTransformSteps | src/imageViewer/image-viewer.tsx:91-93 | the draw transform rotates, then scales with the flip signs, then moves to the canvas centre |
| Render.DrawPlacesImage | src/imageViewer/image-viewer.tsx:91-94 | drawing at (−iw/2, −ih/2) under the draw transform puts each image pixel where the view's point mapping says |
| Render.VisibleAfterFullClear | src/imageViewer/image-viewer.tsx:88 | after a full-canvas clear, only the later paint is visible |
| Render.ShowsAfterDraw | src/imageViewer/image-viewer.tsx:88-95 | a bitmap that was cleared whole and then drawn on by the draw sequence shows exactly the image through the view with the filter |
| Render.DrawFrame | src/imageViewer/image-viewer.tsx:83-98 | whatever was painted before, drawImage leaves exactly the image through the current view and filter on screen, and hands back the transform, filter and save stack |
| Viewer.ZoomKeepsSign | src/imageViewer/image-viewer.tsx:101-115 | multiplying or dividing by 1.1 keeps a positive (non-negative) scale positive (non-negative) |
| Viewer.ImageViewer.Consistent | src/imageViewer/image-viewer.tsx:45-53 | the state invariant: non-negative scale, quadrant rotation, flip signs of ±1, a context between draws, and once an image has loaded a canvas of CanvasExtent for the image, scale and rotation |
| Viewer.ImageViewer.Valid | src/imageViewer/image-viewer.tsx:133-137 | Consistent, and once an image has loaded the screen shows exactly the image through the current view with the current filter text |
| Viewer.ImageViewer.constructor | src/imageViewer/image-viewer.tsx:45-53 | the initial state: scale 1, rotation 0, no flips, filters 100/100/100/0, no image, a blank 300 x 150 canvas |
| Viewer.ImageViewer.DrawImage | src/imageViewer/image-viewer.tsx:83-98 | with an image, the context becomes the result of running the draw sequence for the current view and filters; without one, nothing changes |
| Viewer.ImageViewer.SetCanvasSize | src/imageViewer/image-viewer.tsx:73-81 | the canvas takes the extent for the given image, scale and rotation; the context is reset and then drawn with the state from before the handler |
| Viewer.ImageViewer.Redraw | src/imageViewer/image-viewer.tsx:133-137 | with an image, the context is redrawn with the current state, after which the canvas shows the image through the current view and filters |
| Viewer.ImageViewer.OnImageLoad | src/imageViewer/image-viewer.tsx:55-71 | the image is stored, the scale becomes the fit scale, the canvas is sized for the image, and the image is on screen; rotation, flips and filters are unchanged |
| Viewer.ImageViewer.ZoomIn | src/imageViewer/image-viewer.tsx:101-107 | scale is multiplied by 1.1 and stays positive; the canvas is resized with the unchanged rotation when an image has loaded; everything else is unchanged; the invariant holds |
| Viewer.ImageViewer.ZoomOut | src/imageViewer/image-viewer.tsx:109-115 | scale is divided by 1.1 and stays positive; the canvas is resized with the unchanged rotation when an image has loaded; everything else is unchanged; the invariant holds |
| Viewer.ImageViewer.Rotate | src/imageViewer/image-viewer.tsx:117-123 | rotation becomes `(rotation + 90) % 360` and changes; with an image the canvas swaps width and height; scale, flips and filters are unchanged |
| Viewer.ImageViewer.FlipHorizontal | src/imageViewer/image-viewer.tsx:125-127 | flipH is negated and stays ±1 (so two flips restore it); scale, rotation, flipV, filters and the canvas size are unchanged |
| Viewer.ImageViewer.FlipVertical | src/imageViewer/image-viewer.tsx:129-131 | flipV is negated and stays ±1 (so two flips restore it); scale, rotation, flipH, filters and the canvas size are unchanged |
| Viewer.ImageViewer.SetBrightness | src/imageViewer/image-viewer.tsx:153 | only brightness changes, to the value given, without clamping; the image is redrawn with it |
| Viewer.ImageViewer.SetSaturation | src/imageViewer/image-viewer.tsx:157 | only saturation changes, to the value given, without clamping; the image is redrawn with it |
| Viewer.ImageViewer.SetContrast | src/imageViewer/image-viewer.tsx:161 | only contrast changes, to the value given, without clamping; the image is redrawn with it |
| Viewer.ImageViewer.SetHue | src/imageViewer/image-viewer.tsx:165 | only hue changes, to the value given, without clamping; the image is redrawn with it |
| Raster.BlankGrid | src/imageViewer/image-viewer-crop.tsx:102-103 | a freshly sized canvas is the given size and fully transparent |
| Raster.SubImage | src/imageViewer/image-viewer-crop.tsx:99 | the region's pixel (i, j) is the source pixel (x + i, y + j) |
| Raster.GridExtensionality | src/imageViewer/image-viewer-crop.tsx:99-106 | two grids of the same size with the same pixels are equal |
| Raster.SubImageWhole | src/imageViewer/image-viewer-crop.tsx:99 | the whole-canvas region is the canvas |
| Raster.SubImageOfSubImage | src/imageViewer/image-viewer-crop.tsx:99 | a region of a region is a region of the original, at the summed offset |
| Crop.CropRegion | src/imageViewer/image-viewer-crop.tsx:97-98 | definition: origin cropStart, width and height cropEnd − cropStart (shared with the overlay, see PreviewMatchesCrop) |
| Crop.CropRectStyle | src/imageViewer/image-viewer-crop.tsx:112-121 | definition: the four `${n}px` lengths (read back in PreviewMatchesCrop) |
| Crop.ReadPxOfPx | src/imageViewer/image-viewer-crop.tsx:116-119 | a `${n}px` length is read back as n |
| Crop.PreviewMatchesCrop | src/imageViewer/image-viewer-crop.tsx:97-119 | the overlay's left, top, width and height are exactly the crop region's x, y, width and height |
| Crop.GridOf | src/imageViewer/image-viewer-crop.tsx:99-106 | a pixel buffer's grid has the buffer's size and the buffer's pixels |
| Crop.Pasted | src/imageViewer/image-viewer-crop.tsx:106 | the result of putImageData at (0, 0) has the canvas size: patch pixels over the top left, the old pixels elsewhere |
| Crop.PastedCovering | src/imageViewer/image-viewer-crop.tsx:102-106 | putting data as large as the canvas at (0, 0) replaces every pixel |
| Crop.CropViewer.constructor | src/imageViewer/image-viewer-crop.tsx:38-42 | no image, not dragging, no overlay, both positions (0, 0), a transparent 300 x 150 canvas |
| Crop.CropViewer.HandleImageUpload | src/imageViewer/image-viewer-crop.tsx:44-63 | only a first file whose type starts with "image/" and that decodes is taken; the canvas then has the image's width and height and the image's pixels; otherwise image and canvas are unchanged; the selection state is never touched |
| Crop.CropViewer.DrawBitmap | src/imageViewer/image-viewer-crop.tsx:56 | drawing the image at (0, 0) on a canvas of its size makes every canvas pixel the image's pixel |
| Crop.CropViewer.StartCrop | src/imageViewer/image-viewer-crop.tsx:65-76 | cropStart becomes the pointer position minus the canvas offset, cropEnd becomes (0, 0), dragging and the overlay are on; image and canvas are unchanged |
| Crop.CropViewer.UpdateCrop | src/imageViewer/image-viewer-crop.tsx:78-86 | while dragging only cropEnd changes, to the pointer position; when not dragging nothing changes |
| Crop.CropViewer.EndCrop | src/imageViewer/image-viewer-crop.tsx:88-90 | dragging stops; the selection, the overlay, the image and the canvas are unchanged |
| Crop.CropViewer.GetCropRectStyle | src/imageViewer/image-viewer-crop.tsx:112-121 | the overlay style reads back as cropStart and cropEnd − cropStart |
| Crop.CropViewer.GetImageData | src/imageViewer/image-viewer-crop.tsx:99 | a new buffer of the region's size holding the region's pixels |
| Crop.CropViewer.PutImageData | src/imageViewer/image-viewer-crop.tsx:106 | the data's pixels replace the canvas's from the top left corner; every other pixel is unchanged |
| Crop.CropViewer.PerformCrop | src/imageViewer/image-viewer-crop.tsx:92-110 | with an image: the canvas becomes cropEnd − cropStart in size, new pixel (x, y) is old pixel (cropStart.x + x, cropStart.y + y), and the overlay is hidden; without an image nothing changes; the selection and the image are unchanged |
| Crop.WholeCropKeepsPixels | src/imageViewer/image-viewer-crop.tsx:97-106 | cropping from (0, 0) to (W, H) on a W x H canvas keeps its size and pixels |

## Left out

- React wiring: hooks, the redraw effect's dependency list, styled components and JSX. Each handler is one atomic update followed by a redraw.
- The image load runs with the rotation at the time of the load. In the code, the mount-time closure sees the initial rotation 0. The two agree when the image loads before the first Rotate press.
- I/O: `FileReader`, image decoding and the remote image URL. A load is given as a natural size (viewer) or a decoded bitmap (cropper). An upload with no files, or one that does not decode, leaves the cropper unchanged.
- The container's client size is a parameter of `OnImageLoad`. Layout is not modelled.
- What brightness, saturate, contrast and hue-rotate do to pixels, and the browser's rasterisation, anti-aliasing and compositing. The viewer's draw is recorded as an operation with its transform and filter text. The cropper's upload draw copies pixels exactly.
- IEEE-754 rounding: scale, extents and points are exact reals. `zoomOut(zoomIn(s)) == s` is not claimed for doubles.
- Canvas integer coercion of `canvas.width` and `canvas.height` when they are set to `img.width * scale`. The extents stay real.
- Render.CanvasOp.Rotate takes degrees, while the code passes `rotation * Math.PI / 180` radians. Only quadrant angles are modelled, with their exact sine and cosine.
- Pointer coordinates are integers. Fractional CSS pixel positions and device-pixel-ratio scaling are not modelled.
- `parseInt` of the slider strings: each setter receives the parsed integer. The sliders' 0..200 and −180..180 ranges come from the HTML inputs, and the code does no clamping, so the model does none.
- Crop.CropViewer.PerformCrop: requires a positive, in-bounds selection when an image has loaded. Backwards drags, empty selections and out-of-bounds reads are browser behaviour and are not modelled.
- There is no handling of overlapping uploads (the last upload to finish decoding wins in the browser). Each upload is modelled as finishing before the next event.
- The canvas element is always mounted and its 2D context is always available. The code's null checks on them are not modelled.
- `Geometry.FitScale` and `Viewer.ImageViewer.OnImageLoad` require a positive image width and height. The code divides by them without a guard; the viewer only loads one fixed, non-empty JPEG.
- The redraw effect runs in React only when one of its dependencies changed, for example not when a slider is set to its current value or a zoom leaves scale 0 at 0. The model redraws after every handler. The screen is the same either way, because the previous draw already showed the same state.
- Numbers of 10^21 and more, which JavaScript writes in exponent notation, are not modelled. Slider values and pointer positions are far below that.

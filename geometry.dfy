/**
 * Canvas geometry of the image viewer (src/imageViewer/image-viewer.tsx):
 * the fit-to-container scale, the canvas extent for a quarter-turn rotation,
 * and where the draw transform puts each point of the image.
 *
 * Scales and coordinates are exact reals. Rotation is one of 0, 90, 180, 270
 * degrees, so the cosine and sine in the rotation matrix are exactly 0 or +-1.
 */
module Geometry {

  datatype Point = Point(x: real, y: real)

  /** Width and height of the drawing surface. */
  datatype Extent = Extent(width: real, height: real)

  function Swap(e: Extent): Extent {
    Extent(e.height, e.width)
  }

  predicate IsQuadrant(rotation: int) {
    rotation == 0 || rotation == 90 || rotation == 180 || rotation == 270
  }

  /** A flip sign multiplies one axis: +1 keeps it, -1 mirrors it. */
  predicate IsFlip(sign: real) {
    sign == 1.0 || sign == -1.0
  }

  // ---------------------------------------------------------------------------
  // Fit-to-container scale
  // ---------------------------------------------------------------------------

  /** `Math.min` of three numbers. */
  function Min3(a: real, b: real, c: real): (m: real)
    ensures m <= a && m <= b && m <= c
    ensures m == a || m == b || m == c
  {
    if a <= b && a <= c then a else if b <= c then b else c
  }

  /** The scale at which the image is first shown: `Math.min(cw / iw, ch / ih, 1)`. */
  function FitScale(containerW: real, containerH: real, imageW: real, imageH: real): real
    requires imageW > 0.0 && imageH > 0.0
  {
    Min3(containerW / imageW, containerH / imageH, 1.0)
  }

  /**
   * The image shrinks to fit the container and is never enlarged beyond its
   * natural size: the fit scale is in [0, 1], the scaled image fits, one of
   * the three bounds is met exactly, the scale is 1 exactly when the image
   * already fits, and it is positive exactly when the container has area.
   */
  lemma FitScaleBounds(containerW: real, containerH: real, imageW: real, imageH: real)
    requires containerW >= 0.0 && containerH >= 0.0
    requires imageW > 0.0 && imageH > 0.0
    ensures var s := FitScale(containerW, containerH, imageW, imageH);
            && 0.0 <= s <= 1.0
            && imageW * s <= containerW && imageH * s <= containerH
            && (s == 1.0 || imageW * s == containerW || imageH * s == containerH)
            && (s == 1.0 <==> imageW <= containerW && imageH <= containerH)
            && (s > 0.0 <==> containerW > 0.0 && containerH > 0.0)
  {
    Ratio(containerW, imageW);
    Ratio(containerH, imageH);
  }

  lemma Ratio(a: real, d: real)
    requires a >= 0.0 && d > 0.0
    ensures d * (a / d) == a
    ensures a / d >= 1.0 <==> d <= a
    ensures a / d > 0.0 <==> a > 0.0
  {
    if a / d >= 1.0 {
      assert d * (a / d) >= d * 1.0;
    }
    if d <= a {
      assert a / d >= d / d;
    }
  }

  /** No scale up to 1 that still fits the image in the container is larger than the fit scale. */
  lemma FitScaleIsLargest(containerW: real, containerH: real, imageW: real, imageH: real, t: real)
    requires containerW >= 0.0 && containerH >= 0.0
    requires imageW > 0.0 && imageH > 0.0
    requires 0.0 <= t <= 1.0 && imageW * t <= containerW && imageH * t <= containerH
    ensures t <= FitScale(containerW, containerH, imageW, imageH)
  {
    DivideBothSides(imageW * t, containerW, imageW);
    DivideBothSides(imageH * t, containerH, imageH);
  }

  lemma DivideBothSides(a: real, b: real, d: real)
    requires d > 0.0 && a <= b
    ensures a / d <= b / d
  {
  }

  /** 800x600 image in a 400x300 container: fit scale 0.5, canvas 400x300, and 300x400 after one rotation. */
  lemma FitScaleExample()
    ensures FitScale(400.0, 300.0, 800.0, 600.0) == 0.5
    ensures CanvasExtent(800.0, 600.0, 0.5, 0) == Extent(400.0, 300.0)
    ensures CanvasExtent(800.0, 600.0, 0.5, NextRotation(0)) == Extent(300.0, 400.0)
  {
  }

  // ---------------------------------------------------------------------------
  // Rotation in quarter turns
  // ---------------------------------------------------------------------------

  /** JavaScript's integer quotient: truncated toward zero. */
  function JsQuot(a: int, n: int): int
    requires n > 0
  {
    if a >= 0 then a / n else -((-a) / n)
  }

  /** JavaScript's `%`: the remainder of the truncated quotient, so it has the dividend's sign. */
  function JsRem(a: int, n: int): (r: int)
    requires n > 0
    ensures a == JsQuot(a, n) * n + r
    ensures -n < r < n
    ensures a >= 0 ==> r >= 0
    ensures a <= 0 ==> r <= 0
  {
    if a >= 0 then a % n else -((-a) % n)
  }

  /** The rotation after one press of Rotate: `(rotation + 90) % 360`. */
  function NextRotation(rotation: int): (r: int)
    ensures IsQuadrant(rotation) ==> IsQuadrant(r) && r != rotation
  {
    JsRem(rotation + 90, 360)
  }

  /** The rotation after `n` presses of Rotate. */
  function RotateTimes(rotation: int, n: nat): int {
    if n == 0 then rotation else NextRotation(RotateTimes(rotation, n - 1))
  }

  /** Starting from 0, the n-th rotation is the quadrant 90 * (n mod 4); so only the four quadrants are ever reached. */
  lemma {:induction false} RotationsFromZero(n: nat)
    ensures RotateTimes(0, n) == 90 * (n % 4)
    ensures IsQuadrant(RotateTimes(0, n))
  {
    if n > 0 {
      RotationsFromZero(n - 1);
      var k := (n - 1) % 4;
      assert n % 4 == (k + 1) % 4;
      NextQuadrant(k);
    }
  }

  /** One press of Rotate moves quadrant k to quadrant k + 1, wrapping after the fourth. */
  lemma NextQuadrant(k: nat)
    requires k < 4
    ensures NextRotation(90 * k) == 90 * ((k + 1) % 4)
  {
    if k == 0 {
    } else if k == 1 {
    } else if k == 2 {
    } else {
    }
  }

  /** Four rotations bring every quadrant back to itself; fewer never do. */
  lemma FourRotationsCycle(rotation: int)
    requires IsQuadrant(rotation)
    ensures RotateTimes(rotation, 4) == rotation
    ensures forall k :: 1 <= k < 4 ==> RotateTimes(rotation, k) != rotation
  {
    assert RotateTimes(rotation, 1) == NextRotation(rotation);
    assert RotateTimes(rotation, 2) == NextRotation(NextRotation(rotation));
    assert RotateTimes(rotation, 3) == NextRotation(NextRotation(NextRotation(rotation)));
  }

  // ---------------------------------------------------------------------------
  // Canvas extent
  // ---------------------------------------------------------------------------

  predicate IsRotated(rotation: int) {
    rotation == 90 || rotation == 270
  }

  /** The canvas size for an image of natural size imageW x imageH at the given scale and rotation. */
  function CanvasExtent(imageW: real, imageH: real, scale: real, rotation: int): Extent {
    var isRotated := IsRotated(rotation);
    Extent(if isRotated then imageH * scale else imageW * scale,
           if isRotated then imageW * scale else imageH * scale)
  }

  /**
   * For a non-square image shown at a positive scale, the canvas is the scaled
   * image turned on its side exactly when the rotation is 90 or 270 degrees.
   */
  lemma ExtentSwappedIffRotated(imageW: real, imageH: real, scale: real, rotation: int)
    requires scale > 0.0 && imageW != imageH
    ensures CanvasExtent(imageW, imageH, scale, rotation) == Swap(Extent(imageW * scale, imageH * scale))
        <==> IsRotated(rotation)
  {
  }

  /** One rotation swaps the canvas axes; four rotations restore the canvas extent. */
  lemma ExtentUnderRotation(imageW: real, imageH: real, scale: real, rotation: int)
    requires IsQuadrant(rotation)
    ensures CanvasExtent(imageW, imageH, scale, NextRotation(rotation))
         == Swap(CanvasExtent(imageW, imageH, scale, rotation))
    ensures CanvasExtent(imageW, imageH, scale, RotateTimes(rotation, 4))
         == CanvasExtent(imageW, imageH, scale, rotation)
  {
    FourRotationsCycle(rotation);
  }

  // ---------------------------------------------------------------------------
  // Point mapping of the draw transform
  // ---------------------------------------------------------------------------

  /** cos(rotation * pi / 180), exact for the four quadrants. */
  function Cos(rotation: int): real
    requires IsQuadrant(rotation)
  {
    if rotation == 0 then 1.0 else if rotation == 180 then -1.0 else 0.0
  }

  /** sin(rotation * pi / 180), exact for the four quadrants. */
  function Sin(rotation: int): real
    requires IsQuadrant(rotation)
  {
    if rotation == 90 then 1.0 else if rotation == 270 then -1.0 else 0.0
  }

  /**
   * The canvas rotation about the origin (the y axis points down, so positive
   * angles turn clockwise on screen), written out per quadrant.
   */
  function RotatePoint(p: Point, rotation: int): (r: Point)
    requires IsQuadrant(rotation)
  {
    if rotation == 0 then p
    else if rotation == 90 then Point(-p.y, p.x)
    else if rotation == 180 then Point(-p.x, -p.y)
    else Point(p.y, -p.x)
  }

  /** RotatePoint is the rotation matrix [cos -sin; sin cos] for the angle. */
  lemma RotatePointIsRotationMatrix(p: Point, rotation: int)
    requires IsQuadrant(rotation)
    ensures RotatePoint(p, rotation)
         == Point(Cos(rotation) * p.x - Sin(rotation) * p.y, Sin(rotation) * p.x + Cos(rotation) * p.y)
  {
  }

  /** The view parameters the draw transform reads. */
  datatype View = View(scale: real, rotation: int, flipH: real, flipV: real)

  predicate ValidView(v: View) {
    v.scale > 0.0 && IsQuadrant(v.rotation) && IsFlip(v.flipH) && IsFlip(v.flipV)
  }

  /** The point p seen from an origin at c. */
  function Relative(p: Point, c: Point): Point {
    Point(p.x - c.x, p.y - c.y)
  }

  /** The point p, given relative to c, seen from the original origin again. */
  function Absolute(p: Point, c: Point): Point {
    Point(p.x + c.x, p.y + c.y)
  }

  function Centre(e: Extent): Point {
    Point(e.width / 2.0, e.height / 2.0)
  }

  /** Stretches the axes by scaleX and scaleY (a negative factor also mirrors that axis). */
  function Stretch(p: Point, scaleX: real, scaleY: real): Point {
    Point(scaleX * p.x, scaleY * p.y)
  }

  /**
   * Where the image pixel at p (image coordinates, origin top left) lands on a
   * canvas of the given extent: the image is drawn centred on the local origin,
   * rotated, scaled with the flip signs, and moved to the canvas centre.
   */
  function MapPoint(canvas: Extent, imageW: real, imageH: real, v: View, p: Point): Point
    requires IsQuadrant(v.rotation)
  {
    var local := Relative(p, Centre(Extent(imageW, imageH)));
    var turned := RotatePoint(local, v.rotation);
    Absolute(Stretch(turned, v.flipH * v.scale, v.flipV * v.scale), Centre(canvas))
  }

  /** The rotation that undoes `rotation`. */
  function InverseRotation(rotation: int): (r: int)
    ensures IsQuadrant(rotation) ==> IsQuadrant(r) && JsRem(rotation + r, 360) == 0
  {
    JsRem(360 - rotation, 360)
  }

  /** Rotating by a quadrant and by its inverse, in either order, gives the point back. */
  lemma RotateBack(p: Point, rotation: int)
    requires IsQuadrant(rotation)
    ensures RotatePoint(RotatePoint(p, rotation), InverseRotation(rotation)) == p
    ensures RotatePoint(RotatePoint(p, InverseRotation(rotation)), rotation) == p
  {
  }

  /** The inverse of MapPoint: from a canvas point back to image coordinates. */
  function UnmapPoint(canvas: Extent, imageW: real, imageH: real, v: View, q: Point): Point
    requires ValidView(v)
  {
    var turned := Stretch(Relative(q, Centre(canvas)), 1.0 / (v.flipH * v.scale), 1.0 / (v.flipV * v.scale));
    var local := RotatePoint(turned, InverseRotation(v.rotation));
    Absolute(local, Centre(Extent(imageW, imageH)))
  }

  /** Stretching by k and by 1/k, in either order, gives the point back. */
  lemma StretchBack(p: Point, scaleX: real, scaleY: real)
    requires scaleX != 0.0 && scaleY != 0.0
    ensures Stretch(Stretch(p, scaleX, scaleY), 1.0 / scaleX, 1.0 / scaleY) == p
    ensures Stretch(Stretch(p, 1.0 / scaleX, 1.0 / scaleY), scaleX, scaleY) == p
  {
    assert (1.0 / scaleX) * (scaleX * p.x) == p.x;
    assert (1.0 / scaleY) * (scaleY * p.y) == p.y;
    assert scaleX * ((1.0 / scaleX) * p.x) == p.x;
    assert scaleY * ((1.0 / scaleY) * p.y) == p.y;
  }

  lemma NonzeroScales(v: View)
    requires ValidView(v)
    ensures v.flipH * v.scale != 0.0 && v.flipV * v.scale != 0.0
  {
  }

  /** Moving a point to a centre and back, in either order, gives the point back. */
  lemma OffsetBack(p: Point, c: Point)
    ensures Relative(Absolute(p, c), c) == p
    ensures Absolute(Relative(p, c), c) == p
  {
  }

  /** Unmapping a drawn point recovers the image point. */
  lemma UnmapAfterMap(canvas: Extent, imageW: real, imageH: real, v: View, p: Point)
    requires ValidView(v)
    ensures UnmapPoint(canvas, imageW, imageH, v, MapPoint(canvas, imageW, imageH, v, p)) == p
  {
    var origin := Centre(Extent(imageW, imageH));
    var local := Relative(p, origin);
    var turned := RotatePoint(local, v.rotation);
    var stretched := Stretch(turned, v.flipH * v.scale, v.flipV * v.scale);
    var q := MapPoint(canvas, imageW, imageH, v, p);
    assert q == Absolute(stretched, Centre(canvas));
    assert Relative(q, Centre(canvas)) == stretched by {
      OffsetBack(stretched, Centre(canvas));
    }
    assert Stretch(stretched, 1.0 / (v.flipH * v.scale), 1.0 / (v.flipV * v.scale)) == turned by {
      NonzeroScales(v);
      StretchBack(turned, v.flipH * v.scale, v.flipV * v.scale);
    }
    assert RotatePoint(turned, InverseRotation(v.rotation)) == local by {
      RotateBack(local, v.rotation);
    }
    OffsetBack(p, origin);
  }

  /** Mapping an unmapped canvas point gives the canvas point back. */
  lemma MapAfterUnmap(canvas: Extent, imageW: real, imageH: real, v: View, q: Point)
    requires ValidView(v)
    ensures MapPoint(canvas, imageW, imageH, v, UnmapPoint(canvas, imageW, imageH, v, q)) == q
  {
    var origin := Centre(Extent(imageW, imageH));
    var offset := Relative(q, Centre(canvas));
    var turned := Stretch(offset, 1.0 / (v.flipH * v.scale), 1.0 / (v.flipV * v.scale));
    var local := RotatePoint(turned, InverseRotation(v.rotation));
    var p := UnmapPoint(canvas, imageW, imageH, v, q);
    assert p == Absolute(local, origin);
    assert Relative(p, origin) == local by {
      OffsetBack(local, origin);
    }
    assert RotatePoint(local, v.rotation) == turned by {
      RotateBack(turned, v.rotation);
    }
    assert Stretch(turned, v.flipH * v.scale, v.flipV * v.scale) == offset by {
      NonzeroScales(v);
      StretchBack(offset, v.flipH * v.scale, v.flipV * v.scale);
    }
    OffsetBack(q, Centre(canvas));
  }

  /** The image centre lands on the canvas centre, whatever the view. */
  lemma CentreToCentre(canvas: Extent, imageW: real, imageH: real, v: View)
    requires IsQuadrant(v.rotation)
    ensures MapPoint(canvas, imageW, imageH, v, Point(imageW / 2.0, imageH / 2.0))
         == Point(canvas.width / 2.0, canvas.height / 2.0)
  {
  }

  /** t is one end of the interval [0, len]. */
  predicate AtEnd(t: real, len: real) {
    t == 0.0 || t == len
  }

  /** t lies in the interval [0, len]. */
  predicate Within(t: real, len: real) {
    0.0 <= t <= len
  }

  predicate IsCorner(e: Extent, p: Point) {
    AtEnd(p.x, e.width) && AtEnd(p.y, e.height)
  }

  predicate Inside(e: Extent, p: Point) {
    Within(p.x, e.width) && Within(p.y, e.height)
  }

  /**
   * One canvas axis as a function of the image axis it shows: the image
   * coordinate t in [0, len], read backwards when the axis is mirrored, times s.
   */
  function AxisImage(s: real, len: real, mirrored: bool, t: real): real {
    s * (if mirrored then len - t else t)
  }

  /** Whether the canvas x axis runs against the image axis it shows. */
  predicate MirroredX(v: View) {
    (v.flipH == -1.0) != (v.rotation == 90 || v.rotation == 180)
  }

  /** Whether the canvas y axis runs against the image axis it shows. */
  predicate MirroredY(v: View) {
    (v.flipV == -1.0) != (v.rotation == 180 || v.rotation == 270)
  }

  /** At 0 and 180 degrees the canvas x axis shows the image x axis, and y shows y. */
  lemma MapPointUpright(imageW: real, imageH: real, v: View, p: Point)
    requires ValidView(v) && !IsRotated(v.rotation)
    ensures CanvasExtent(imageW, imageH, v.scale, v.rotation) == Extent(imageW * v.scale, imageH * v.scale)
    ensures MapPoint(CanvasExtent(imageW, imageH, v.scale, v.rotation), imageW, imageH, v, p)
         == Point(AxisImage(v.scale, imageW, MirroredX(v), p.x), AxisImage(v.scale, imageH, MirroredY(v), p.y))
  {
  }

  /** At 90 and 270 degrees the canvas x axis shows the image y axis, and y shows x. */
  lemma MapPointTurned(imageW: real, imageH: real, v: View, p: Point)
    requires ValidView(v) && IsRotated(v.rotation)
    ensures CanvasExtent(imageW, imageH, v.scale, v.rotation) == Extent(imageH * v.scale, imageW * v.scale)
    ensures MapPoint(CanvasExtent(imageW, imageH, v.scale, v.rotation), imageW, imageH, v, p)
         == Point(AxisImage(v.scale, imageH, MirroredX(v), p.y), AxisImage(v.scale, imageW, MirroredY(v), p.x))
  {
  }

  lemma MapPointUprightX(imageW: real, imageH: real, v: View, p: Point)
    requires ValidView(v) && !IsRotated(v.rotation)
    ensures CanvasExtent(imageW, imageH, v.scale, v.rotation).width == imageW * v.scale
    ensures MapPoint(CanvasExtent(imageW, imageH, v.scale, v.rotation), imageW, imageH, v, p).x
         == AxisImage(v.scale, imageW, MirroredX(v), p.x)
  {
    MapPointUpright(imageW, imageH, v, p);
  }

  lemma MapPointUprightY(imageW: real, imageH: real, v: View, p: Point)
    requires ValidView(v) && !IsRotated(v.rotation)
    ensures CanvasExtent(imageW, imageH, v.scale, v.rotation).height == imageH * v.scale
    ensures MapPoint(CanvasExtent(imageW, imageH, v.scale, v.rotation), imageW, imageH, v, p).y
         == AxisImage(v.scale, imageH, MirroredY(v), p.y)
  {
    MapPointUpright(imageW, imageH, v, p);
  }

  lemma MapPointTurnedX(imageW: real, imageH: real, v: View, p: Point)
    requires ValidView(v) && IsRotated(v.rotation)
    ensures CanvasExtent(imageW, imageH, v.scale, v.rotation).width == imageH * v.scale
    ensures MapPoint(CanvasExtent(imageW, imageH, v.scale, v.rotation), imageW, imageH, v, p).x
         == AxisImage(v.scale, imageH, MirroredX(v), p.y)
  {
    MapPointTurned(imageW, imageH, v, p);
  }

  lemma MapPointTurnedY(imageW: real, imageH: real, v: View, p: Point)
    requires ValidView(v) && IsRotated(v.rotation)
    ensures CanvasExtent(imageW, imageH, v.scale, v.rotation).height == imageW * v.scale
    ensures MapPoint(CanvasExtent(imageW, imageH, v.scale, v.rotation), imageW, imageH, v, p).y
         == AxisImage(v.scale, imageW, MirroredY(v), p.x)
  {
    MapPointTurned(imageW, imageH, v, p);
  }

  /** Scaling by a positive factor keeps order and equality. */
  lemma ScaledOrder(s: real, x: real, y: real)
    requires s > 0.0
    ensures x <= y <==> s * x <= s * y
    ensures x == y <==> s * x == s * y
  {
    if x <= y {
      assert s * y - s * x == s * (y - x);
    } else {
      assert s * x - s * y == s * (x - y);
    }
  }

  /** Along one axis, t is an end of [0, len] exactly when its image is an end of [0, len * s]. */
  lemma AxisEnds(s: real, len: real, mirrored: bool, t: real)
    requires s > 0.0
    ensures AtEnd(t, len) <==> AtEnd(AxisImage(s, len, mirrored, t), len * s)
  {
    var w := if mirrored then len - t else t;
    assert AtEnd(t, len) <==> AtEnd(w, len);
    ScaledOrder(s, 0.0, w);
    ScaledOrder(s, w, len);
  }

  /** Along one axis, t lies in [0, len] exactly when its image lies in [0, len * s]. */
  lemma AxisWithin(s: real, len: real, mirrored: bool, t: real)
    requires s > 0.0
    ensures Within(t, len) <==> Within(AxisImage(s, len, mirrored, t), len * s)
  {
    var w := if mirrored then len - t else t;
    assert Within(t, len) <==> Within(w, len);
    ScaledOrder(s, 0.0, w);
    ScaledOrder(s, w, len);
  }

  lemma UprightEndsX(imageW: real, imageH: real, v: View, p: Point)
    requires ValidView(v) && !IsRotated(v.rotation)
    ensures var canvas := CanvasExtent(imageW, imageH, v.scale, v.rotation);
            AtEnd(p.x, imageW) <==> AtEnd(MapPoint(canvas, imageW, imageH, v, p).x, canvas.width)
  {
    MapPointUprightX(imageW, imageH, v, p);
    AxisEnds(v.scale, imageW, MirroredX(v), p.x);
  }

  lemma UprightEndsY(imageW: real, imageH: real, v: View, p: Point)
    requires ValidView(v) && !IsRotated(v.rotation)
    ensures var canvas := CanvasExtent(imageW, imageH, v.scale, v.rotation);
            AtEnd(p.y, imageH) <==> AtEnd(MapPoint(canvas, imageW, imageH, v, p).y, canvas.height)
  {
    MapPointUprightY(imageW, imageH, v, p);
    AxisEnds(v.scale, imageH, MirroredY(v), p.y);
  }

  lemma UprightWithinX(imageW: real, imageH: real, v: View, p: Point)
    requires ValidView(v) && !IsRotated(v.rotation)
    ensures var canvas := CanvasExtent(imageW, imageH, v.scale, v.rotation);
            Within(p.x, imageW) <==> Within(MapPoint(canvas, imageW, imageH, v, p).x, canvas.width)
  {
    MapPointUprightX(imageW, imageH, v, p);
    AxisWithin(v.scale, imageW, MirroredX(v), p.x);
  }

  lemma UprightWithinY(imageW: real, imageH: real, v: View, p: Point)
    requires ValidView(v) && !IsRotated(v.rotation)
    ensures var canvas := CanvasExtent(imageW, imageH, v.scale, v.rotation);
            Within(p.y, imageH) <==> Within(MapPoint(canvas, imageW, imageH, v, p).y, canvas.height)
  {
    MapPointUprightY(imageW, imageH, v, p);
    AxisWithin(v.scale, imageH, MirroredY(v), p.y);
  }

  lemma TurnedEndsX(imageW: real, imageH: real, v: View, p: Point)
    requires ValidView(v) && IsRotated(v.rotation)
    ensures var canvas := CanvasExtent(imageW, imageH, v.scale, v.rotation);
            AtEnd(p.y, imageH) <==> AtEnd(MapPoint(canvas, imageW, imageH, v, p).x, canvas.width)
  {
    MapPointTurnedX(imageW, imageH, v, p);
    AxisEnds(v.scale, imageH, MirroredX(v), p.y);
  }

  lemma TurnedEndsY(imageW: real, imageH: real, v: View, p: Point)
    requires ValidView(v) && IsRotated(v.rotation)
    ensures var canvas := CanvasExtent(imageW, imageH, v.scale, v.rotation);
            AtEnd(p.x, imageW) <==> AtEnd(MapPoint(canvas, imageW, imageH, v, p).y, canvas.height)
  {
    MapPointTurnedY(imageW, imageH, v, p);
    AxisEnds(v.scale, imageW, MirroredY(v), p.x);
  }

  lemma TurnedWithinX(imageW: real, imageH: real, v: View, p: Point)
    requires ValidView(v) && IsRotated(v.rotation)
    ensures var canvas := CanvasExtent(imageW, imageH, v.scale, v.rotation);
            Within(p.y, imageH) <==> Within(MapPoint(canvas, imageW, imageH, v, p).x, canvas.width)
  {
    MapPointTurnedX(imageW, imageH, v, p);
    AxisWithin(v.scale, imageH, MirroredX(v), p.y);
  }

  lemma TurnedWithinY(imageW: real, imageH: real, v: View, p: Point)
    requires ValidView(v) && IsRotated(v.rotation)
    ensures var canvas := CanvasExtent(imageW, imageH, v.scale, v.rotation);
            Within(p.x, imageW) <==> Within(MapPoint(canvas, imageW, imageH, v, p).y, canvas.height)
  {
    MapPointTurnedY(imageW, imageH, v, p);
    AxisWithin(v.scale, imageW, MirroredY(v), p.x);
  }

  /** Two points are corners together when each axis is at an end together. */
  lemma CornerFromAxes(e: Extent, p: Point, f: Extent, q: Point)
    requires AtEnd(p.x, e.width) <==> AtEnd(q.x, f.width)
    requires AtEnd(p.y, e.height) <==> AtEnd(q.y, f.height)
    ensures IsCorner(e, p) <==> IsCorner(f, q)
  {
  }

  /** Two points are inside together when each axis is within range together. */
  lemma InsideFromAxes(e: Extent, p: Point, f: Extent, q: Point)
    requires Within(p.x, e.width) <==> Within(q.x, f.width)
    requires Within(p.y, e.height) <==> Within(q.y, f.height)
    ensures Inside(e, p) <==> Inside(f, q)
  {
  }

  /** The same, when the x axis of one shows the y axis of the other and the other way round. */
  lemma CornerFromSwappedAxes(e: Extent, p: Point, f: Extent, q: Point)
    requires AtEnd(p.y, e.height) <==> AtEnd(q.x, f.width)
    requires AtEnd(p.x, e.width) <==> AtEnd(q.y, f.height)
    ensures IsCorner(e, p) <==> IsCorner(f, q)
  {
  }

  lemma InsideFromSwappedAxes(e: Extent, p: Point, f: Extent, q: Point)
    requires Within(p.y, e.height) <==> Within(q.x, f.width)
    requires Within(p.x, e.width) <==> Within(q.y, f.height)
    ensures Inside(e, p) <==> Inside(f, q)
  {
  }

  lemma CornersUpright(imageW: real, imageH: real, v: View, p: Point)
    requires ValidView(v) && !IsRotated(v.rotation)
    ensures var canvas := CanvasExtent(imageW, imageH, v.scale, v.rotation);
            IsCorner(Extent(imageW, imageH), p) <==> IsCorner(canvas, MapPoint(canvas, imageW, imageH, v, p))
  {
    var canvas := CanvasExtent(imageW, imageH, v.scale, v.rotation);
    UprightEndsX(imageW, imageH, v, p);
    UprightEndsY(imageW, imageH, v, p);
    CornerFromAxes(Extent(imageW, imageH), p, canvas, MapPoint(canvas, imageW, imageH, v, p));
  }

  lemma CornersTurned(imageW: real, imageH: real, v: View, p: Point)
    requires ValidView(v) && IsRotated(v.rotation)
    ensures var canvas := CanvasExtent(imageW, imageH, v.scale, v.rotation);
            IsCorner(Extent(imageW, imageH), p) <==> IsCorner(canvas, MapPoint(canvas, imageW, imageH, v, p))
  {
    var canvas := CanvasExtent(imageW, imageH, v.scale, v.rotation);
    TurnedEndsX(imageW, imageH, v, p);
    TurnedEndsY(imageW, imageH, v, p);
    CornerFromSwappedAxes(Extent(imageW, imageH), p, canvas, MapPoint(canvas, imageW, imageH, v, p));
  }

  /** The four image corners are exactly the points drawn on the four canvas corners. */
  lemma CornersToCorners(imageW: real, imageH: real, v: View, p: Point)
    requires ValidView(v)
    ensures var canvas := CanvasExtent(imageW, imageH, v.scale, v.rotation);
            IsCorner(Extent(imageW, imageH), p) <==> IsCorner(canvas, MapPoint(canvas, imageW, imageH, v, p))
  {
    if IsRotated(v.rotation) {
      CornersTurned(imageW, imageH, v, p);
    } else {
      CornersUpright(imageW, imageH, v, p);
    }
  }

  lemma InsideUpright(imageW: real, imageH: real, v: View, p: Point)
    requires ValidView(v) && !IsRotated(v.rotation)
    ensures var canvas := CanvasExtent(imageW, imageH, v.scale, v.rotation);
            Inside(Extent(imageW, imageH), p) <==> Inside(canvas, MapPoint(canvas, imageW, imageH, v, p))
  {
    var canvas := CanvasExtent(imageW, imageH, v.scale, v.rotation);
    UprightWithinX(imageW, imageH, v, p);
    UprightWithinY(imageW, imageH, v, p);
    InsideFromAxes(Extent(imageW, imageH), p, canvas, MapPoint(canvas, imageW, imageH, v, p));
  }

  lemma InsideTurned(imageW: real, imageH: real, v: View, p: Point)
    requires ValidView(v) && IsRotated(v.rotation)
    ensures var canvas := CanvasExtent(imageW, imageH, v.scale, v.rotation);
            Inside(Extent(imageW, imageH), p) <==> Inside(canvas, MapPoint(canvas, imageW, imageH, v, p))
  {
    var canvas := CanvasExtent(imageW, imageH, v.scale, v.rotation);
    TurnedWithinX(imageW, imageH, v, p);
    TurnedWithinY(imageW, imageH, v, p);
    InsideFromSwappedAxes(Extent(imageW, imageH), p, canvas, MapPoint(canvas, imageW, imageH, v, p));
  }

  /** The image rectangle is drawn exactly onto the canvas rectangle: nothing is cut off, nothing is left blank. */
  lemma ImageFillsCanvas(imageW: real, imageH: real, v: View, p: Point)
    requires ValidView(v)
    ensures var canvas := CanvasExtent(imageW, imageH, v.scale, v.rotation);
            Inside(Extent(imageW, imageH), p) <==> Inside(canvas, MapPoint(canvas, imageW, imageH, v, p))
  {
    if IsRotated(v.rotation) {
      InsideTurned(imageW, imageH, v, p);
    } else {
      InsideUpright(imageW, imageH, v, p);
    }
  }

  /** Negating the horizontal flip sign mirrors every drawn point about the canvas's vertical centre line. */
  lemma FlipHorizontalMirrors(canvas: Extent, imageW: real, imageH: real, v: View, p: Point)
    requires IsQuadrant(v.rotation)
    ensures var q := MapPoint(canvas, imageW, imageH, v, p);
            MapPoint(canvas, imageW, imageH, v.(flipH := v.flipH * -1.0), p) == Point(canvas.width - q.x, q.y)
  {
    var turned := RotatePoint(Relative(p, Centre(Extent(imageW, imageH))), v.rotation);
    assert (v.flipH * -1.0) * v.scale * turned.x == -(v.flipH * v.scale * turned.x);
  }

  /** Negating the vertical flip sign mirrors every drawn point about the canvas's horizontal centre line. */
  lemma FlipVerticalMirrors(canvas: Extent, imageW: real, imageH: real, v: View, p: Point)
    requires IsQuadrant(v.rotation)
    ensures var q := MapPoint(canvas, imageW, imageH, v, p);
            MapPoint(canvas, imageW, imageH, v.(flipV := v.flipV * -1.0), p) == Point(q.x, canvas.height - q.y)
  {
    var turned := RotatePoint(Relative(p, Centre(Extent(imageW, imageH))), v.rotation);
    assert (v.flipV * -1.0) * v.scale * turned.y == -(v.flipV * v.scale * turned.y);
  }
}

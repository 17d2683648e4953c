/**
 * What `drawImage` in src/imageViewer/image-viewer.tsx hands to the canvas:
 * the CSS filter text built from the four slider values, and the fixed
 * sequence of 2D-context calls (clear, save, filter, translate, scale, rotate,
 * draw centred, restore).
 *
 * The 2D context is modelled by the part of its state those calls touch: the
 * current transform, the current filter, the stack of saved states, and the
 * list of paint operations since the bitmap was last reset. The pixels a draw
 * produces (filters, compositing, anti-aliasing) are not modelled; a draw is
 * recorded with the transform that places it.
 */
module Render {
  import opened Wrappers
  import opened Geometry
  import opened NumberText

  // ---------------------------------------------------------------------------
  // Filter text
  // ---------------------------------------------------------------------------

  /** The four slider values: brightness, saturation and contrast in percent, hue in degrees. */
  datatype Filters = Filters(brightness: int, saturation: int, contrast: int, hue: int)

  const InitialFilters := Filters(100, 100, 100, 0)

  /** One CSS filter function such as `saturate(120%)`: its name, its amount and the amount's unit. */
  datatype FilterFunction = FilterFunction(name: string, amount: int, unit: string)

  /** A unit that cannot be read as more digits of the amount before it. */
  predicate UnitEndsAmount(ff: FilterFunction) {
    |ff.unit| == 0 || !IsDigit(ff.unit[0])
  }

  /** The filter functions drawImage applies, always in this order: brightness, saturate, contrast, hue-rotate. */
  function FilterFunctions(f: Filters): (fs: seq<FilterFunction>)
    ensures |fs| == 4 && forall i :: 0 <= i < 4 ==> UnitEndsAmount(fs[i])
  {
    [ FilterFunction("brightness", f.brightness, "%"),
      FilterFunction("saturate", f.saturation, "%"),
      FilterFunction("contrast", f.contrast, "%"),
      FilterFunction("hue-rotate", f.hue, "deg") ]
  }

  /** `name(amount unit)`, e.g. `hue-rotate(-45deg)`. */
  function FunctionText(ff: FilterFunction): string {
    (ff.name + "(") + (IntText(ff.amount) + (ff.unit + ")"))
  }

  /** The filter functions, separated by single spaces. */
  function FilterListText(fs: seq<FilterFunction>): string
    decreases |fs|
  {
    if |fs| == 0 then ""
    else if |fs| == 1 then FunctionText(fs[0])
    else FunctionText(fs[0]) + (" " + FilterListText(fs[1..]))
  }

  /** The value of the context's filter property while the image is drawn. */
  function FilterText(f: Filters): string {
    FilterListText(FilterFunctions(f))
  }

  /** Reads one filter function with the given name and unit: its amount and the text after it. */
  function ReadFunction(name: string, unit: string, s: string): Option<(int, string)> {
    match Expect(name + "(", s)
    case None => None
    case Some(t) =>
      match ReadInt(t)
      case None => None
      case Some((n, t2)) =>
        match Expect(unit + ")", t2)
        case None => None
        case Some(t3) => Some((n, t3))
  }

  /** The name and unit of each function of a list: the shape a reader expects. */
  function Shape(fs: seq<FilterFunction>): seq<(string, string)> {
    seq(|fs|, i requires 0 <= i < |fs| => (fs[i].name, fs[i].unit))
  }

  function Amounts(fs: seq<FilterFunction>): seq<int> {
    seq(|fs|, i requires 0 <= i < |fs| => fs[i].amount)
  }

  /**
   * Reads a space-separated list of filter functions of the given shape that
   * makes up the whole of s: one amount per function, or None when s has
   * another shape.
   */
  function ReadFunctions(shape: seq<(string, string)>, s: string): (r: Option<seq<int>>)
    ensures r.Some? ==> |r.value| == |shape|
    decreases |shape|
  {
    if |shape| == 0 then
      if s == "" then Some([]) else None
    else
      match ReadFunction(shape[0].0, shape[0].1, s)
      case None => None
      case Some((n, rest)) =>
        if |shape| == 1 then
          if rest == "" then Some([n]) else None
        else
          match Expect(" ", rest)
          case None => None
          case Some(more) =>
            match ReadFunctions(shape[1..], more)
            case None => None
            case Some(ns) => Some([n] + ns)
  }

  const FilterShape: seq<(string, string)> := [("brightness", "%"), ("saturate", "%"), ("contrast", "%"), ("hue-rotate", "deg")]

  /** Reads a filter text of the shape FilterText writes, or None when s has another shape. */
  function ParseFilterText(s: string): Option<Filters> {
    match ReadFunctions(FilterShape, s)
    case None => None
    case Some(ns) => Some(Filters(ns[0], ns[1], ns[2], ns[3]))
  }

  /** A function's text is read back as its amount, and the reader stops exactly where the function ends. */
  lemma ReadFunctionText(ff: FilterFunction, rest: string)
    requires UnitEndsAmount(ff)
    ensures ReadFunction(ff.name, ff.unit, FunctionText(ff) + rest) == Some((ff.amount, rest))
  {
    var open := ff.name + "(";
    var close := ff.unit + ")";
    var number := IntText(ff.amount);
    assert FunctionText(ff) + rest == open + (number + (close + rest));
    ExpectLiteral(open, number + (close + rest));
    assert EndsNumber(close + rest) by {
      assert (close + rest)[0] == close[0];
    }
    ReadIntText(ff.amount, close + rest);
    ExpectLiteral(close, rest);
  }

  /** The text of a list of filter functions is read back, against the list's shape, as the list's amounts. */
  lemma {:induction false} ReadFunctionsText(fs: seq<FilterFunction>)
    requires forall i :: 0 <= i < |fs| ==> UnitEndsAmount(fs[i])
    ensures ReadFunctions(Shape(fs), FilterListText(fs)) == Some(Amounts(fs))
    decreases |fs|
  {
    if |fs| == 0 {
      assert Shape(fs) == [] && Amounts(fs) == [];
    } else if |fs| == 1 {
      ReadFunctionText(fs[0], "");
      assert FunctionText(fs[0]) + "" == FunctionText(fs[0]);
      assert Amounts(fs) == [fs[0].amount];
    } else {
      var tail := FilterListText(fs[1..]);
      assert FilterListText(fs) == FunctionText(fs[0]) + (" " + tail);
      ReadFunctionText(fs[0], " " + tail);
      ShapeSplit(fs);
      ReadFunctionsText(fs[1..]);
      ReadFunctionsStep(Shape(fs), FilterListText(fs), fs[0].amount, tail, Amounts(fs[1..]));
    }
  }

  /** Shape and amounts of a non-empty list split at its first function. */
  lemma ShapeSplit(fs: seq<FilterFunction>)
    requires |fs| > 0
    ensures Shape(fs) == [(fs[0].name, fs[0].unit)] + Shape(fs[1..])
    ensures Amounts(fs) == [fs[0].amount] + Amounts(fs[1..])
  {
  }

  /** One step of ReadFunctions: a function, a space, then the rest of the list. */
  lemma ReadFunctionsStep(shape: seq<(string, string)>, s: string, n: int, tail: string, ns: seq<int>)
    requires |shape| > 1
    requires ReadFunction(shape[0].0, shape[0].1, s) == Some((n, " " + tail))
    requires ReadFunctions(shape[1..], tail) == Some(ns)
    ensures ReadFunctions(shape, s) == Some([n] + ns)
  {
    ExpectLiteral(" ", tail);
  }

  /** The filter text determines the four values it was built from. */
  lemma ParseFilterTextRoundTrip(f: Filters)
    ensures ParseFilterText(FilterText(f)) == Some(f)
  {
    var fs := FilterFunctions(f);
    assert Shape(fs) == FilterShape;
    ReadFunctionsText(fs);
  }

  /**
   * The filter functions are named brightness, saturate, contrast and
   * hue-rotate, in this order, and carry the brightness, saturation, contrast
   * and hue values, in this order.
   */
  lemma FilterFunctionsOrder(f: Filters)
    ensures Shape(FilterFunctions(f)) == FilterShape
    ensures Amounts(FilterFunctions(f)) == [f.brightness, f.saturation, f.contrast, f.hue]
  {
  }

  /** Different slider values always give different filter texts. */
  lemma FilterTextInjective(f: Filters, g: Filters)
    requires FilterText(f) == FilterText(g)
    ensures f == g
  {
    ParseFilterTextRoundTrip(f);
    ParseFilterTextRoundTrip(g);
  }

  // ---------------------------------------------------------------------------
  // Affine transforms, in the canvas's (a, b, c, d, e, f) form
  // ---------------------------------------------------------------------------

  /** The map (x, y) -> (a x + c y + e, b x + d y + f). */
  datatype Affine = Affine(a: real, b: real, c: real, d: real, e: real, f: real)

  const Identity := Affine(1.0, 0.0, 0.0, 1.0, 0.0, 0.0)

  function Apply(m: Affine, p: Point): Point {
    Point(m.a * p.x + m.c * p.y + m.e, m.b * p.x + m.d * p.y + m.f)
  }

  /** m after n: the transform a context call multiplies onto the current one. */
  function Compose(m: Affine, n: Affine): Affine {
    Affine(m.a * n.a + m.c * n.b, m.b * n.a + m.d * n.b,
           m.a * n.c + m.c * n.d, m.b * n.c + m.d * n.d,
           m.a * n.e + m.c * n.f + m.e, m.b * n.e + m.d * n.f + m.f)
  }

  function Translation(x: real, y: real): Affine {
    Affine(1.0, 0.0, 0.0, 1.0, x, y)
  }

  function Scaling(x: real, y: real): Affine {
    Affine(x, 0.0, 0.0, y, 0.0, 0.0)
  }

  /** The canvas rotation by a quadrant angle: [cos -sin; sin cos]. */
  function Rotation(degrees: int): Affine
    requires IsQuadrant(degrees)
  {
    Affine(Cos(degrees), Sin(degrees), -Sin(degrees), Cos(degrees), 0.0, 0.0)
  }

  lemma ApplyIdentity(p: Point)
    ensures Apply(Identity, p) == p
  {
  }

  /** One coordinate of a composite: (m after n) applied to (x, y), multiplied out, is m applied to n's result. */
  lemma ComposeCoordinate(ma: real, mc: real, me: real, na: real, nb: real, nc: real, nd: real, ne: real, nf: real, x: real, y: real)
    ensures (ma * na + mc * nb) * x + (ma * nc + mc * nd) * y + (ma * ne + mc * nf + me)
         == ma * (na * x + nc * y + ne) + mc * (nb * x + nd * y + nf) + me
  {
    assert ma * (na * x + nc * y + ne) == (ma * na) * x + (ma * nc) * y + ma * ne;
    assert mc * (nb * x + nd * y + nf) == (mc * nb) * x + (mc * nd) * y + mc * nf;
    assert (ma * na + mc * nb) * x == (ma * na) * x + (mc * nb) * x;
    assert (ma * nc + mc * nd) * y == (ma * nc) * y + (mc * nd) * y;
  }

  /** Applying a composite is applying its parts one after the other. */
  lemma ApplyCompose(m: Affine, n: Affine, p: Point)
    ensures Apply(Compose(m, n), p) == Apply(m, Apply(n, p))
  {
    var k := Compose(m, n);
    var q := Apply(n, p);
    assert Apply(k, p).x == Apply(m, q).x by {
      ComposeCoordinate(m.a, m.c, m.e, n.a, n.b, n.c, n.d, n.e, n.f, p.x, p.y);
    }
    assert Apply(k, p).y == Apply(m, q).y by {
      ComposeCoordinate(m.b, m.d, m.f, n.a, n.b, n.c, n.d, n.e, n.f, p.x, p.y);
    }
  }

  lemma ApplyTranslation(x: real, y: real, p: Point)
    ensures Apply(Translation(x, y), p) == Absolute(p, Point(x, y))
  {
  }

  lemma ApplyScaling(x: real, y: real, p: Point)
    ensures Apply(Scaling(x, y), p) == Stretch(p, x, y)
  {
  }

  lemma ApplyRotation(degrees: int, p: Point)
    requires IsQuadrant(degrees)
    ensures Apply(Rotation(degrees), p) == RotatePoint(p, degrees)
  {
  }

  // ---------------------------------------------------------------------------
  // The 2D context
  // ---------------------------------------------------------------------------

  /** The context calls drawImage makes; Rotate takes degrees (the code passes degrees * pi / 180 radians). */
  datatype CanvasOp =
    | ClearRect(x: real, y: real, w: real, h: real)
    | Save
    | Restore
    | SetFilter(filter: string)
    | Translate(tx: real, ty: real)
    | Scale(sx: real, sy: real)
    | Rotate(degrees: int)
    | DrawImage(image: Extent, dx: real, dy: real)

  /**
   * The current transformation of a context, kept as the elementary transforms
   * multiplied onto the identity, first call first. Its matrix is their
   * product (Matrix); the empty list is the identity.
   */
  type Transforms = seq<Affine>

  /** The matrix of a transform list: each call multiplies its transform onto the right. */
  function Matrix(ts: Transforms): Affine {
    if |ts| == 0 then Identity else Compose(Matrix(ts[..|ts| - 1]), ts[|ts| - 1])
  }

  /** Where a transform list takes p: the last call applies first. */
  function ApplyAll(ts: Transforms, p: Point): Point {
    if |ts| == 0 then p else ApplyAll(ts[..|ts| - 1], Apply(ts[|ts| - 1], p))
  }

  /** The matrix of a transform list moves every point where its calls, applied one by one, move it. */
  lemma {:induction false} MatrixApplies(ts: Transforms, p: Point)
    ensures Apply(Matrix(ts), p) == ApplyAll(ts, p)
    decreases |ts|
  {
    if |ts| == 0 {
      ApplyIdentity(p);
    } else {
      var init := ts[..|ts| - 1];
      var last := ts[|ts| - 1];
      ApplyCompose(Matrix(init), last, p);
      MatrixApplies(init, Apply(last, p));
    }
  }

  /** A paint operation on the bitmap, with the transform and filter in force when it was made. */
  datatype Paint =
    | Clear(transform: Transforms, x: real, y: real, w: real, h: real)
    | Draw(transform: Transforms, filter: string, image: Extent, dx: real, dy: real)

  datatype Saved = Saved(transform: Transforms, filter: string)

  datatype Context = Context(transform: Transforms, filter: string, saved: seq<Saved>, painted: seq<Paint>)

  /** The state of a context right after its canvas is created or resized: identity transform, no filter, nothing saved, a blank bitmap. */
  const Blank := Context([], "none", [], [])

  predicate QuadrantOps(ops: seq<CanvasOp>) {
    forall i :: 0 <= i < |ops| ==> ops[i].Rotate? ==> IsQuadrant(ops[i].degrees)
  }

  function Step(ctx: Context, op: CanvasOp): Context
    requires op.Rotate? ==> IsQuadrant(op.degrees)
  {
    match op
    case ClearRect(x, y, w, h) => ctx.(painted := ctx.painted + [Clear(ctx.transform, x, y, w, h)])
    case Save => ctx.(saved := ctx.saved + [Saved(ctx.transform, ctx.filter)])
    case Restore =>
      if |ctx.saved| == 0 then ctx
      else
        var top := ctx.saved[|ctx.saved| - 1];
        ctx.(transform := top.transform, filter := top.filter, saved := ctx.saved[..|ctx.saved| - 1])
    case SetFilter(t) => ctx.(filter := t)
    case Translate(x, y) => ctx.(transform := ctx.transform + [Translation(x, y)])
    case Scale(x, y) => ctx.(transform := ctx.transform + [Scaling(x, y)])
    case Rotate(r) => ctx.(transform := ctx.transform + [Rotation(r)])
    case DrawImage(image, dx, dy) => ctx.(painted := ctx.painted + [Draw(ctx.transform, ctx.filter, image, dx, dy)])
  }

  function Run(ctx: Context, ops: seq<CanvasOp>): Context
    requires QuadrantOps(ops)
    decreases |ops|
  {
    if |ops| == 0 then ctx else Run(Step(ctx, ops[0]), ops[1..])
  }

  /** Where a draw puts the image pixel at p. */
  function Placed(paint: Paint, p: Point): Point
    requires paint.Draw?
  {
    ApplyAll(paint.transform, Point(paint.dx + p.x, paint.dy + p.y))
  }

  /** A clear with the identity transform over a rectangle that contains the whole canvas. */
  predicate ClearsAll(paint: Paint, canvas: Extent) {
    paint.Clear? && paint.transform == []
    && paint.x <= 0.0 && paint.y <= 0.0 && paint.x + paint.w >= canvas.width && paint.y + paint.h >= canvas.height
  }

  /** The paint operations whose result is on screen: those after the last clear of the whole canvas. */
  function Visible(painted: seq<Paint>, canvas: Extent): (vis: seq<Paint>)
    ensures |vis| <= |painted|
    ensures forall i :: 0 <= i < |vis| ==> !ClearsAll(vis[i], canvas)
    ensures vis == painted[|painted| - |vis|..]
  {
    if |painted| == 0 then []
    else
      var last := painted[|painted| - 1];
      var earlier := painted[..|painted| - 1];
      if ClearsAll(last, canvas) then []
      else
        var rest := Visible(earlier, canvas);
        assert earlier[|earlier| - |rest|..] + [last] == painted[|painted| - (|rest| + 1)..];
        rest + [last]
  }
  /**
   * What is visible starts right after the last full-canvas clear: the paint
   * just before the visible suffix, if there is one, clears the whole canvas.
   */
  lemma {:induction false} VisibleAfterLastClear(painted: seq<Paint>, canvas: Extent)
    ensures var vis := Visible(painted, canvas);
            |vis| < |painted| ==> ClearsAll(painted[|painted| - |vis| - 1], canvas)
    decreases |painted|
  {
    if |painted| == 0 {
      assert Visible(painted, canvas) == [];
    } else if ClearsAll(painted[|painted| - 1], canvas) {
      assert Visible(painted, canvas) == [];
    } else {
      var earlier := painted[..|painted| - 1];
      var rest := Visible(earlier, canvas);
      assert Visible(painted, canvas) == rest + [painted[|painted| - 1]];
      VisibleAfterLastClear(earlier, canvas);
      if |rest| < |earlier| {
        assert painted[|painted| - |rest| - 2] == earlier[|earlier| - |rest| - 1];
      }
    }
  }


  // ---------------------------------------------------------------------------
  // The draw sequence
  // ---------------------------------------------------------------------------

  /**
   * The calls drawImage makes: clear the canvas, save, set the filter, move to
   * the canvas centre, scale with the flip signs, rotate, draw the image
   * centred on the origin, restore.
   */
  function DrawOps(canvas: Extent, image: Extent, v: View, filter: string): (ops: seq<CanvasOp>)
    requires IsQuadrant(v.rotation)
    ensures QuadrantOps(ops)
  {
    [ ClearRect(0.0, 0.0, canvas.width, canvas.height),
      Save,
      SetFilter(filter),
      Translate(canvas.width / 2.0, canvas.height / 2.0),
      Scale(v.flipH * v.scale, v.flipV * v.scale),
      Rotate(v.rotation),
      DrawImage(image, -image.width / 2.0, -image.height / 2.0),
      Restore ]
  }

  /** The transform in force when drawImage draws the image. */
  function DrawTransform(canvas: Extent, v: View): Transforms
    requires IsQuadrant(v.rotation)
  {
    [Translation(canvas.width / 2.0, canvas.height / 2.0), Scaling(v.flipH * v.scale, v.flipV * v.scale), Rotation(v.rotation)]
  }

  /** Running ops1 and then ops2 is running their concatenation. */
  lemma {:induction false} RunAppend(ctx: Context, ops1: seq<CanvasOp>, ops2: seq<CanvasOp>)
    requires QuadrantOps(ops1) && QuadrantOps(ops2)
    ensures QuadrantOps(ops1 + ops2)
    ensures Run(ctx, ops1 + ops2) == Run(Run(ctx, ops1), ops2)
    decreases |ops1|
  {
    assert QuadrantOps(ops1 + ops2) by {
      forall i | 0 <= i < |ops1 + ops2| && (ops1 + ops2)[i].Rotate?
        ensures IsQuadrant((ops1 + ops2)[i].degrees)
      {
        if i < |ops1| {
          assert (ops1 + ops2)[i] == ops1[i];
        } else {
          assert (ops1 + ops2)[i] == ops2[i - |ops1|];
        }
      }
    }
    if |ops1| > 0 {
      assert (ops1 + ops2)[1..] == ops1[1..] + ops2;
      assert QuadrantOps(ops1[1..]) by {
        forall i | 0 <= i < |ops1[1..]| && ops1[1..][i].Rotate?
          ensures IsQuadrant(ops1[1..][i].degrees)
        {
          assert ops1[1..][i] == ops1[i + 1];
        }
      }
      RunAppend(Step(ctx, ops1[0]), ops1[1..], ops2);
    } else {
      assert ops1 + ops2 == ops2;
    }
  }

  /** The draw sequence, run call by call. */
  lemma RunDrawOps(ctx: Context, canvas: Extent, image: Extent, v: View, filter: string)
    requires IsQuadrant(v.rotation)
    ensures Run(ctx, DrawOps(canvas, image, v, filter))
         == Step(Step(Step(Step(Step(Step(Step(Step(ctx,
              ClearRect(0.0, 0.0, canvas.width, canvas.height)),
              Save),
              SetFilter(filter)),
              Translate(canvas.width / 2.0, canvas.height / 2.0)),
              Scale(v.flipH * v.scale, v.flipV * v.scale)),
              CanvasOp.Rotate(v.rotation)),
              CanvasOp.DrawImage(image, -image.width / 2.0, -image.height / 2.0)),
              Restore)
  {
    var ops := DrawOps(canvas, image, v, filter);
    RunEight(ctx, ops);
    assert ops[0] == ClearRect(0.0, 0.0, canvas.width, canvas.height);
    assert ops[1] == Save && ops[2] == SetFilter(filter);
    assert ops[3] == Translate(canvas.width / 2.0, canvas.height / 2.0);
    assert ops[4] == Scale(v.flipH * v.scale, v.flipV * v.scale);
    assert ops[5] == CanvasOp.Rotate(v.rotation);
    assert ops[6] == CanvasOp.DrawImage(image, -image.width / 2.0, -image.height / 2.0);
    assert ops[7] == Restore;
  }

  /** The context after the draw sequence, written out call by call. */
  lemma DrawOpsState(ctx: Context, canvas: Extent, image: Extent, v: View, filter: string)
    requires IsQuadrant(v.rotation)
    requires ctx.transform == []
    ensures var after := Run(ctx, DrawOps(canvas, image, v, filter));
            after == ctx.(painted := ctx.painted
                            + [Clear([], 0.0, 0.0, canvas.width, canvas.height),
                               Draw(DrawTransform(canvas, v), filter, image,
                                    -image.width / 2.0, -image.height / 2.0)])
  {
    RunDrawOps(ctx, canvas, image, v, filter);
    SetUpSteps(ctx, canvas, v, filter);
    var c6 := Context(DrawTransform(canvas, v), filter, ctx.saved + [Saved([], ctx.filter)],
                      ctx.painted + [Clear([], 0.0, 0.0, canvas.width, canvas.height)]);
    DrawAndRestoreSteps(ctx, c6, image, -image.width / 2.0, -image.height / 2.0);
    var clear := Clear([], 0.0, 0.0, canvas.width, canvas.height);
    var draw := Draw(DrawTransform(canvas, v), filter, image, -image.width / 2.0, -image.height / 2.0);
    assert ctx.painted + [clear] + [draw] == ctx.painted + [clear, draw];
  }

  /** The first six calls clear the canvas, save, set the filter and build up the draw transform. */
  lemma SetUpSteps(ctx: Context, canvas: Extent, v: View, filter: string)
    requires IsQuadrant(v.rotation) && ctx.transform == []
    ensures Step(Step(Step(Step(Step(Step(ctx,
              ClearRect(0.0, 0.0, canvas.width, canvas.height)),
              Save),
              SetFilter(filter)),
              Translate(canvas.width / 2.0, canvas.height / 2.0)),
              Scale(v.flipH * v.scale, v.flipV * v.scale)),
              CanvasOp.Rotate(v.rotation))
         == Context(DrawTransform(canvas, v), filter, ctx.saved + [Saved([], ctx.filter)],
                    ctx.painted + [Clear([], 0.0, 0.0, canvas.width, canvas.height)])
  {
    var c := Step(Step(Step(ctx, ClearRect(0.0, 0.0, canvas.width, canvas.height)), Save), SetFilter(filter));
    assert c == Context([], filter, ctx.saved + [Saved([], ctx.filter)],
                        ctx.painted + [Clear([], 0.0, 0.0, canvas.width, canvas.height)]);
    TransformSteps(c, canvas, v);
  }

  /** Translating, scaling and rotating from the identity builds the draw transform. */
  lemma TransformSteps(c: Context, canvas: Extent, v: View)
    requires IsQuadrant(v.rotation) && c.transform == []
    ensures Step(Step(Step(c,
              Translate(canvas.width / 2.0, canvas.height / 2.0)),
              Scale(v.flipH * v.scale, v.flipV * v.scale)),
              CanvasOp.Rotate(v.rotation))
         == c.(transform := DrawTransform(canvas, v))
  {
    var t := Translation(canvas.width / 2.0, canvas.height / 2.0);
    var s := Scaling(v.flipH * v.scale, v.flipV * v.scale);
    var r := Rotation(v.rotation);
    assert c.transform + [t] == [t];
    assert [t] + [s] == [t, s];
    assert [t, s] + [r] == [t, s, r];
    var ts := DrawTransform(canvas, v);
    assert |ts| == 3 && ts[0] == t && ts[1] == s && ts[2] == r;
    assert ts == [t, s, r];
  }

  /** Drawing and then restoring records the draw and returns to the state saved before. */
  lemma DrawAndRestoreSteps(ctx: Context, c: Context, image: Extent, dx: real, dy: real)
    requires c.saved == ctx.saved + [Saved(ctx.transform, ctx.filter)]
    ensures Step(Step(c, CanvasOp.DrawImage(image, dx, dy)), Restore)
         == ctx.(painted := c.painted + [Draw(c.transform, c.filter, image, dx, dy)])
  {
    assert (ctx.saved + [Saved(ctx.transform, ctx.filter)])[..|ctx.saved|] == ctx.saved;
  }

  /** Running eight calls, one after the other. */
  lemma RunEight(ctx: Context, ops: seq<CanvasOp>)
    requires QuadrantOps(ops) && |ops| == 8
    ensures Run(ctx, ops)
         == Step(Step(Step(Step(Step(Step(Step(Step(ctx, ops[0]), ops[1]), ops[2]), ops[3]), ops[4]), ops[5]), ops[6]), ops[7])
  {
    var c1 := Step(ctx, ops[0]);
    var c2 := Step(c1, ops[1]);
    var c3 := Step(c2, ops[2]);
    var c4 := Step(c3, ops[3]);
    var c5 := Step(c4, ops[4]);
    var c6 := Step(c5, ops[5]);
    var c7 := Step(c6, ops[6]);
    assert ops[0..] == ops;
    RunFrom(ctx, ops, 0);
    RunFrom(c1, ops, 1);
    RunFrom(c2, ops, 2);
    RunFrom(c3, ops, 3);
    RunFrom(c4, ops, 4);
    RunFrom(c5, ops, 5);
    RunFrom(c6, ops, 6);
    RunFrom(c7, ops, 7);
    assert ops[8..] == [];
  }

  /** Running a suffix of ops takes its first call and then the rest. */
  lemma RunFrom(ctx: Context, ops: seq<CanvasOp>, k: int)
    requires QuadrantOps(ops) && 0 <= k < |ops|
    ensures QuadrantOps(ops[k..]) && QuadrantOps(ops[k + 1..])
    ensures Run(ctx, ops[k..]) == Run(Step(ctx, ops[k]), ops[k + 1..])
  {
    assert ops[k..][1..] == ops[k + 1..];
    QuadrantSuffix(ops, k);
    QuadrantSuffix(ops, k + 1);
  }

  lemma QuadrantSuffix(ops: seq<CanvasOp>, k: int)
    requires QuadrantOps(ops) && 0 <= k <= |ops|
    ensures QuadrantOps(ops[k..])
  {
    var t := ops[k..];
    forall i | 0 <= i < |t| && t[i].Rotate?
      ensures IsQuadrant(t[i].degrees)
    {
      assert t[i] == ops[k + i];
    }
  }

  /**
   * The matrix the context holds while the image is drawn: translate(tx, ty)
   * * scale(sx, sy) * rotate(r), multiplied out.
   */
  lemma DrawMatrix(canvas: Extent, v: View)
    requires IsQuadrant(v.rotation)
    ensures Matrix(DrawTransform(canvas, v))
         == Affine(v.flipH * v.scale * Cos(v.rotation), v.flipV * v.scale * Sin(v.rotation),
                   -(v.flipH * v.scale * Sin(v.rotation)), v.flipV * v.scale * Cos(v.rotation),
                   canvas.width / 2.0, canvas.height / 2.0)
  {
    var ts := DrawTransform(canvas, v);
    var sx := v.flipH * v.scale;
    var sy := v.flipV * v.scale;
    var r := v.rotation;
    var one := ts[..2][..1];
    assert one == [ts[0]] && one[..0] == [];
    assert Matrix(one) == Compose(Identity, ts[0]);
    assert Matrix(one) == ts[0];
    assert Matrix(ts[..2]) == Compose(ts[0], ts[1]);
    assert Matrix(ts[..2]) == Affine(sx, 0.0, 0.0, sy, canvas.width / 2.0, canvas.height / 2.0);
    assert Matrix(ts) == Compose(Matrix(ts[..2]), Rotation(r));
  }

  /** The draw transform rotates, then scales with the flip signs, then moves to the canvas centre. */
  lemma DrawTransformSteps(canvas: Extent, v: View, u: Point)
    requires IsQuadrant(v.rotation)
    ensures ApplyAll(DrawTransform(canvas, v), u)
         == Absolute(Stretch(RotatePoint(u, v.rotation), v.flipH * v.scale, v.flipV * v.scale), Centre(canvas))
  {
    var ts := DrawTransform(canvas, v);
    var one := ts[..2][..1];
    assert one == [ts[0]] && one[..0] == [];
    var turned := RotatePoint(u, v.rotation);
    var stretched := Stretch(turned, v.flipH * v.scale, v.flipV * v.scale);
    assert Apply(ts[2], u) == turned by {
      ApplyRotation(v.rotation, u);
    }
    assert Apply(ts[1], turned) == stretched by {
      ApplyScaling(v.flipH * v.scale, v.flipV * v.scale, turned);
    }
    assert Apply(ts[0], stretched) == Absolute(stretched, Centre(canvas)) by {
      ApplyTranslation(canvas.width / 2.0, canvas.height / 2.0, stretched);
    }
    assert ApplyAll(one, stretched) == Apply(ts[0], stretched);
    assert ApplyAll(ts[..2], turned) == ApplyAll(one, stretched);
    assert ApplyAll(ts, u) == ApplyAll(ts[..2], turned);
  }

  /** The draw puts every image pixel where the view's point mapping says. */
  lemma DrawPlacesImage(canvas: Extent, image: Extent, v: View, p: Point)
    requires IsQuadrant(v.rotation)
    ensures ApplyAll(DrawTransform(canvas, v), Point(-image.width / 2.0 + p.x, -image.height / 2.0 + p.y))
         == MapPoint(canvas, image.width, image.height, v, p)
  {
    var local := Point(-image.width / 2.0 + p.x, -image.height / 2.0 + p.y);
    assert MapPoint(canvas, image.width, image.height, v, p)
        == Absolute(Stretch(RotatePoint(local, v.rotation), v.flipH * v.scale, v.flipV * v.scale), Centre(canvas)) by {
      assert local == Relative(p, Centre(Extent(image.width, image.height)));
    }
    DrawTransformSteps(canvas, v, local);
  }

  /** After the draw sequence the canvas shows exactly one draw: the image through the view, with the filter text. */
  ghost predicate Shows(ctx: Context, canvas: Extent, image: Extent, v: View, filter: string)
    requires IsQuadrant(v.rotation)
  {
    var vis := Visible(ctx.painted, canvas);
    && |vis| == 1 && vis[0].Draw?
    && vis[0].image == image
    && vis[0].filter == filter
    && (forall p :: Placed(vis[0], p) == MapPoint(canvas, image.width, image.height, v, p))
  }

  /** A paint right after a clear of the whole canvas is all that is visible. */
  lemma VisibleAfterFullClear(before: seq<Paint>, clear: Paint, last: Paint, canvas: Extent)
    requires ClearsAll(clear, canvas) && !ClearsAll(last, canvas)
    ensures Visible(before + [clear] + [last], canvas) == [last]
  {
    var s := before + [clear] + [last];
    assert s[..|s| - 1] == before + [clear];
    assert Visible(before + [clear], canvas) == [];
  }

  /** The draw in the sequence puts every image pixel where the view's point mapping says. */
  lemma DrawPlacesEveryPoint(canvas: Extent, image: Extent, v: View, filter: string)
    requires IsQuadrant(v.rotation)
    ensures var draw := Draw(DrawTransform(canvas, v), filter, image, -image.width / 2.0, -image.height / 2.0);
            forall p :: Placed(draw, p) == MapPoint(canvas, image.width, image.height, v, p)
  {
    var draw := Draw(DrawTransform(canvas, v), filter, image, -image.width / 2.0, -image.height / 2.0);
    forall p
      ensures Placed(draw, p) == MapPoint(canvas, image.width, image.height, v, p)
    {
      DrawPlacesImage(canvas, image, v, p);
    }
  }

  /** A context whose bitmap was last cleared whole and then drawn on by the draw sequence shows the image. */
  lemma ShowsAfterDraw(before: seq<Paint>, after: Context, canvas: Extent, image: Extent, v: View, filter: string)
    requires IsQuadrant(v.rotation)
    requires after.painted
          == before + [Clear([], 0.0, 0.0, canvas.width, canvas.height),
                       Draw(DrawTransform(canvas, v), filter, image, -image.width / 2.0, -image.height / 2.0)]
    ensures Shows(after, canvas, image, v, filter)
  {
    var clear := Clear([], 0.0, 0.0, canvas.width, canvas.height);
    var draw := Draw(DrawTransform(canvas, v), filter, image, -image.width / 2.0, -image.height / 2.0);
    assert Visible(after.painted, canvas) == [draw] by {
      assert after.painted == before + [clear] + [draw];
      VisibleAfterFullClear(before, clear, draw, canvas);
    }
    DrawPlacesEveryPoint(canvas, image, v, filter);
  }

  /**
   * Whatever was painted before, the draw sequence leaves exactly the image
   * through the view on screen, and hands back the transform, filter and save
   * stack it started from.
   */
  lemma DrawFrame(ctx: Context, canvas: Extent, image: Extent, v: View, filter: string)
    requires IsQuadrant(v.rotation)
    requires ctx.transform == []
    ensures var after := Run(ctx, DrawOps(canvas, image, v, filter));
            && after.transform == ctx.transform && after.filter == ctx.filter && after.saved == ctx.saved
            && Shows(after, canvas, image, v, filter)
  {
    DrawOpsState(ctx, canvas, image, v, filter);
    ShowsAfterDraw(ctx.painted, Run(ctx, DrawOps(canvas, image, v, filter)), canvas, image, v, filter);
  }
}

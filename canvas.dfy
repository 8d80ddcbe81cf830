/** The slice of the HTML canvas API the hooks use: the element's bitmap size
    and a 2D context whose drawing calls are recorded as abstract commands
    instead of pixels. */
module Canvas2D {
  import opened Js

  /** An angle as the hooks hand it to cos/sin or to `arc`: an exact fraction of
      a full turn (the source's `t * 2 * Math.PI`), or a raw radian value. */
  datatype Angle = Turns(turns: real) | Radians(radians: real)

  /** The angles `0` and `2 * Math.PI` that full circles are drawn between. */
  const NoTurn := Turns(0.0)
  const FullTurn := Turns(1.0)

  /** A point in bitmap pixels. `Polar(cx, cy, r, a, dx, dy)` is the point
      (cx + cos(a)·r + dx, cy + sin(a)·r + dy); cos and sin are never evaluated. */
  datatype Pos =
    | XY(x: real, y: real)
    | Polar(cx: real, cy: real, radius: real, angle: Angle, dx: real, dy: real)

  datatype PathOp =
    | Move(to: Pos)
    | Line(to: Pos)
    | ArcOf(centre: Pos, radius: real, start: Angle, end: Angle)

  /** A stroke or fill style: a CSS colour, or the radar sweep's linear gradient
      (green at 80% opacity at `from` fading to 10% at `to`). */
  datatype Paint = Colour(css: string) | SweepGradient(from: Pos, to: Pos)

  /** The drawing state of a 2D context that the hooks set. */
  datatype Style = Style(
    globalAlpha: real,
    strokeStyle: Paint,
    fillStyle: Paint,
    lineWidth: real,
    font: string,
    textAlign: string)

  /** The state of a freshly created 2D context. */
  const DefaultStyle := Style(1.0, Colour("#000000"), Colour("#000000"), 1.0, "10px sans-serif", "start")

  /** One thing put on the bitmap, with the state attributes that primitive uses. */
  datatype DrawCmd =
    | ClearRect(width: real, height: real)
    | StrokePath(path: seq<PathOp>, alpha: real, paint: Paint, lineWidth: real)
    | FillPath(path: seq<PathOp>, alpha: real, paint: Paint)
    | FillText(text: string, at: Pos, alpha: real, paint: Paint, font: string, align: string)

  /** The largest value a reflected `unsigned long` attribute such as
      `canvas.width` stores; a larger one is replaced by the attribute's default. */
  const MaxReflected: nat := 0x7fff_ffff

  /** The defaults of `canvas.width` and `canvas.height`. */
  const DefaultWidth: nat := 300
  const DefaultHeight: nat := 150

  /** The bitmap size stored when `canvas.width` (or `height`) is assigned a
      layout size times the pixel ratio: the product converted to `unsigned long`,
      or the attribute's default when that exceeds 2^31 - 1. */
  function DevicePixels(cssPixels: real, ratio: real, default: nat): (px: nat)
    ensures px <= MaxReflected || px == default
    ensures ToUnsignedLong(cssPixels * ratio) > MaxReflected ==> px == default
    ensures 0.0 <= cssPixels * ratio < (MaxReflected + 1) as real ==> px as real <= cssPixels * ratio < px as real + 1.0
    ensures -((MaxReflected + 1) as real) < cssPixels * ratio <= -1.0 ==> px == default
  {
    var n := ToUnsignedLong(cssPixels * ratio);
    if n > MaxReflected then default else n
  }

  /** The part of a full turn that `arc(x, y, r, start, end)` covers when drawn
      clockwise (anticlockwise false), with both angles in turns: the whole circle
      once end - start reaches a turn; end - start when it lies in [0, 1); and,
      when the end lies before the start, the way round clockwise to it, which
      is the whole circle again when the two are a whole number of turns apart. */
  function ClockwiseSweep(startTurns: real, endTurns: real): (sweep: real)
    ensures 0.0 <= sweep <= 1.0
    ensures endTurns - startTurns >= 1.0 ==> sweep == 1.0
    ensures 0.0 <= endTurns - startTurns < 1.0 ==> sweep == endTurns - startTurns
    ensures endTurns - startTurns < 0.0 ==>
      sweep == 1.0 - ((startTurns - endTurns) - (startTurns - endTurns).Floor as real)
    ensures endTurns - startTurns < 0.0 ==> sweep > 0.0
  {
    var d := endTurns - startTurns;
    if d >= 1.0 then 1.0 else if d >= 0.0 then d else 1.0 - ((-d) - (-d).Floor as real)
  }

  /** A `<canvas>` element: bitmap size in device pixels and CSS size in layout pixels. */
  class CanvasElement {
    var width: nat
    var height: nat
    var cssWidth: real
    var cssHeight: real

    constructor ()
      ensures width == DefaultWidth && height == DefaultHeight && cssWidth == 300.0 && cssHeight == 150.0
    {
      width, height := DefaultWidth, DefaultHeight;
      cssWidth, cssHeight := 300.0, 150.0;
    }
  }

  /** A `CanvasRenderingContext2D`: its style, its current path and the log of what it drew. */
  class Context2D {
    var style: Style
    var path: seq<PathOp>
    var log: seq<DrawCmd>

    constructor ()
      ensures style == DefaultStyle && path == [] && log == []
    {
      style, path, log := DefaultStyle, [], [];
    }

    /** Values outside [0, 1] are ignored, as the canvas API specifies. */
    method SetGlobalAlpha(a: real)
      modifies this
      ensures style == if 0.0 <= a <= 1.0 then old(style).(globalAlpha := a) else old(style)
      ensures path == old(path) && log == old(log)
    {
      if 0.0 <= a <= 1.0 {
        style := style.(globalAlpha := a);
      }
    }

    method SetStrokeStyle(p: Paint)
      modifies this
      ensures style == old(style).(strokeStyle := p)
      ensures path == old(path) && log == old(log)
    {
      style := style.(strokeStyle := p);
    }

    method SetFillStyle(p: Paint)
      modifies this
      ensures style == old(style).(fillStyle := p)
      ensures path == old(path) && log == old(log)
    {
      style := style.(fillStyle := p);
    }

    /** Non-positive widths are ignored, as the canvas API specifies. */
    method SetLineWidth(w: real)
      modifies this
      ensures style == if w > 0.0 then old(style).(lineWidth := w) else old(style)
      ensures path == old(path) && log == old(log)
    {
      if w > 0.0 {
        style := style.(lineWidth := w);
      }
    }

    method SetFont(f: string)
      modifies this
      ensures style == old(style).(font := f)
      ensures path == old(path) && log == old(log)
    {
      style := style.(font := f);
    }

    method SetTextAlign(a: string)
      modifies this
      ensures style == old(style).(textAlign := a)
      ensures path == old(path) && log == old(log)
    {
      style := style.(textAlign := a);
    }

    method ClearRect(w: real, h: real)
      modifies this
      ensures log == old(log) + [DrawCmd.ClearRect(w, h)]
      ensures style == old(style) && path == old(path)
    {
      log := log + [DrawCmd.ClearRect(w, h)];
    }

    method BeginPath()
      modifies this
      ensures path == [] && style == old(style) && log == old(log)
    {
      path := [];
    }

    method MoveTo(p: Pos)
      modifies this
      ensures path == old(path) + [Move(p)] && style == old(style) && log == old(log)
    {
      path := path + [Move(p)];
    }

    method LineTo(p: Pos)
      modifies this
      ensures path == old(path) + [Line(p)] && style == old(style) && log == old(log)
    {
      path := path + [Line(p)];
    }

    /** A negative radius makes `arc` throw; callers check it first. */
    method Arc(centre: Pos, radius: real, start: Angle, end: Angle)
      requires radius >= 0.0
      modifies this
      ensures path == old(path) + [ArcOf(centre, radius, start, end)]
      ensures style == old(style) && log == old(log)
    {
      path := path + [ArcOf(centre, radius, start, end)];
    }

    method Stroke()
      modifies this
      ensures log == old(log) + [StrokePath(path, style.globalAlpha, style.strokeStyle, style.lineWidth)]
      ensures style == old(style) && path == old(path)
    {
      log := log + [StrokePath(path, style.globalAlpha, style.strokeStyle, style.lineWidth)];
    }

    method Fill()
      modifies this
      ensures log == old(log) + [FillPath(path, style.globalAlpha, style.fillStyle)]
      ensures style == old(style) && path == old(path)
    {
      log := log + [FillPath(path, style.globalAlpha, style.fillStyle)];
    }

    method FillText(text: string, at: Pos)
      modifies this
      ensures log == old(log) + [DrawCmd.FillText(text, at, style.globalAlpha, style.fillStyle, style.font, style.textAlign)]
      ensures style == old(style) && path == old(path)
    {
      log := log + [DrawCmd.FillText(text, at, style.globalAlpha, style.fillStyle, style.font, style.textAlign)];
    }
  }

  function CountStrokes(cmds: seq<DrawCmd>): nat {
    if cmds == [] then 0 else CountStrokes(cmds[..|cmds| - 1]) + (if cmds[|cmds| - 1].StrokePath? then 1 else 0)
  }

  function CountFills(cmds: seq<DrawCmd>): nat {
    if cmds == [] then 0 else CountFills(cmds[..|cmds| - 1]) + (if cmds[|cmds| - 1].FillPath? then 1 else 0)
  }

  function CountTexts(cmds: seq<DrawCmd>): nat {
    if cmds == [] then 0 else CountTexts(cmds[..|cmds| - 1]) + (if cmds[|cmds| - 1].FillText? then 1 else 0)
  }

  /** Counting distributes over concatenation of command logs. */
  lemma {:induction false} CountsAppend(a: seq<DrawCmd>, b: seq<DrawCmd>)
    ensures CountStrokes(a + b) == CountStrokes(a) + CountStrokes(b)
    ensures CountFills(a + b) == CountFills(a) + CountFills(b)
    ensures CountTexts(a + b) == CountTexts(a) + CountTexts(b)
    decreases |b|
  {
    if b == [] {
      assert a + b == a;
    } else {
      var b' := b[..|b| - 1];
      CountsAppend(a, b');
      assert (a + b)[..|a + b| - 1] == a + b';
    }
  }

  /** A log made only of strokes counts each of them as a stroke and nothing else. */
  lemma {:induction false} CountsOfStrokes(cmds: seq<DrawCmd>)
    requires forall i :: 0 <= i < |cmds| ==> cmds[i].StrokePath?
    ensures CountStrokes(cmds) == |cmds| && CountFills(cmds) == 0 && CountTexts(cmds) == 0
    decreases |cmds|
  {
    if cmds != [] {
      CountsOfStrokes(cmds[..|cmds| - 1]);
    }
  }

  /** A log made only of filled paths counts each of them as a fill and nothing else. */
  lemma {:induction false} CountsOfFills(cmds: seq<DrawCmd>)
    requires forall i :: 0 <= i < |cmds| ==> cmds[i].FillPath?
    ensures CountFills(cmds) == |cmds| && CountStrokes(cmds) == 0 && CountTexts(cmds) == 0
    decreases |cmds|
  {
    if cmds != [] {
      CountsOfFills(cmds[..|cmds| - 1]);
    }
  }

  /** A log made only of texts counts each of them as a text and nothing else. */
  lemma {:induction false} CountsOfTexts(cmds: seq<DrawCmd>)
    requires forall i :: 0 <= i < |cmds| ==> cmds[i].FillText?
    ensures CountTexts(cmds) == |cmds| && CountStrokes(cmds) == 0 && CountFills(cmds) == 0
    decreases |cmds|
  {
    if cmds != [] {
      CountsOfTexts(cmds[..|cmds| - 1]);
    }
  }

  /** Counting over six consecutive parts of a log. */
  lemma CountsOfParts(a: seq<DrawCmd>, b: seq<DrawCmd>, c: seq<DrawCmd>, d: seq<DrawCmd>, e: seq<DrawCmd>, f: seq<DrawCmd>)
    ensures var all := a + b + c + d + e + f;
      && CountStrokes(all) == CountStrokes(a) + CountStrokes(b) + CountStrokes(c) + CountStrokes(d) + CountStrokes(e) + CountStrokes(f)
      && CountFills(all) == CountFills(a) + CountFills(b) + CountFills(c) + CountFills(d) + CountFills(e) + CountFills(f)
      && CountTexts(all) == CountTexts(a) + CountTexts(b) + CountTexts(c) + CountTexts(d) + CountTexts(e) + CountTexts(f)
  {
    CountsAppend(a, b);
    CountsAppend(a + b, c);
    CountsAppend(a + b + c, d);
    CountsAppend(a + b + c + d, e);
    CountsAppend(a + b + c + d + e, f);
  }
}

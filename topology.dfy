/** The `networkTopology` hook: a canvas the size of its wrapper showing one
    line per connection between normalised positions and one dot per data-flow
    marker. */
module NetworkTopology {
  import opened Wrappers
  import opened Js
  import opened Frames
  import opened Canvas2D
  import opened Snapshot
  import TacticalRadar

  // ---------------------------------------------------------------------------
  // Pixel ratio

  /** `getPixelRatio`: the device pixel ratio over the standard backing-store ratio, each defaulting to 1. */
  function TopologyPixelRatio(devicePixelRatio: Option<real>, backingStorePixelRatio: Option<real>): (ratio: real)
    ensures ratio * OrNumber(backingStorePixelRatio, 1.0) == OrNumber(devicePixelRatio, 1.0)
    ensures ratio != 0.0
  {
    OrNumber(devicePixelRatio, 1.0) / OrNumber(backingStorePixelRatio, 1.0)
  }

  /** The two hooks agree when a context reports only the standard backing-store
      ratio, and differ when it reports only a vendor-prefixed one, which this hook ignores. */
  lemma PixelRatiosOfTheTwoHooks(devicePixelRatio: Option<real>, standard: Option<real>)
    ensures TopologyPixelRatio(devicePixelRatio, standard)
            == TacticalRadar.GetPixelRatio(devicePixelRatio, TacticalRadar.BackingStore(standard, None, None, None, None))
    ensures TopologyPixelRatio(Some(2.0), None) == 2.0
    ensures TacticalRadar.GetPixelRatio(Some(2.0), TacticalRadar.BackingStore(None, Some(2.0), None, None, None)) == 1.0
  {
  }

  // ---------------------------------------------------------------------------
  // What one frame draws

  /** The opacity a connection is stroked with: `strength || 0.5`, except that a
      value outside [0, 1] is ignored by the context, which keeps the 1 the
      previous connection (or the start of the frame) left. */
  function ConnectionAlpha(strength: Option<real>): real {
    var a := OrNumber(strength, 0.5);
    if 0.0 <= a <= 1.0 then a else 1.0
  }

  /** A normalised coordinate times a bitmap dimension. */
  function Scale(t: real, dimension: real): real {
    t * dimension
  }

  /** A normalised point scaled to the bitmap, each axis by its own dimension. */
  function Scaled(p: Point, width: real, height: real): Pos {
    XY(Scale(p.x, width), Scale(p.y, height))
  }

  function ConnectionPath(c: ConnectionJson, width: real, height: real): seq<PathOp> {
    [Move(Scaled(c.from, width, height)), Line(Scaled(c.to, width, height))]
  }

  /** What `drawConnection` strokes: a green line one pixel wide. */
  function ConnectionCommand(c: ConnectionJson, width: real, height: real): DrawCmd {
    StrokePath(ConnectionPath(c, width, height), ConnectionAlpha(c.strength), Colour(TacticalRadar.Green), 1.0)
  }

  function ConnectionCommands(cs: seq<ConnectionJson>, width: real, height: real): (cmds: seq<DrawCmd>)
    ensures |cmds| == |cs|
  {
    seq(|cs|, i requires 0 <= i < |cs| => ConnectionCommand(cs[i], width, height))
  }

  /** `flow.size || 2`. */
  function FlowSize(f: FlowJson): real {
    OrNumber(f.size, 2.0)
  }

  /** `flow.color || '#00ff00'`. */
  function FlowColour(f: FlowJson): string {
    OrString(f.color, TacticalRadar.Green)
  }

  function FlowPath(f: FlowJson, width: real, height: real): seq<PathOp> {
    [ArcOf(XY(Scale(f.x, width), Scale(f.y, height)), FlowSize(f), NoTurn, FullTurn)]
  }

  /** What `drawDataFlow` fills: a full circle of the flow's size in the flow's colour. */
  function FlowCommand(f: FlowJson, width: real, height: real): DrawCmd {
    FillPath(FlowPath(f, width, height), 1.0, Colour(FlowColour(f)))
  }

  function FlowCommands(fs: seq<FlowJson>, width: real, height: real): (cmds: seq<DrawCmd>)
    ensures |cmds| == |fs|
  {
    seq(|fs|, i requires 0 <= i < |fs| => FlowCommand(fs[i], width, height))
  }

  /** How many flows a frame draws: `arc` throws on a negative radius, which
      ends the frame at the first flow whose size is negative. */
  function DrawableFlows(fs: seq<FlowJson>): (n: nat)
    ensures n <= |fs|
    ensures forall i :: 0 <= i < n ==> FlowSize(fs[i]) >= 0.0
    ensures n < |fs| ==> FlowSize(fs[n]) < 0.0
  {
    if fs == [] || FlowSize(fs[0]) < 0.0 then 0 else 1 + DrawableFlows(fs[1..])
  }

  /** Everything `renderNetwork` draws on a width × height bitmap, in order. */
  function NetworkCommands(width: nat, height: nat, st: TopologyState): seq<DrawCmd> {
    var w := width as real;
    var h := height as real;
    [ClearRect(w, h)]
    + ConnectionCommands(st.connections, w, h)
    + FlowCommands(st.dataFlow, w, h)[..DrawableFlows(st.dataFlow)]
  }

  /** The fill colour after the flows: the last flow reached (drawn, or the one that threw), else the colour before them. */
  function FillAfterFlows(fill: Paint, fs: seq<FlowJson>): Paint {
    var n := DrawableFlows(fs);
    if n < |fs| then Colour(FlowColour(fs[n]))
    else if n == 0 then fill
    else Colour(FlowColour(fs[n - 1]))
  }

  /** The path after the flows: emptied by a flow that threw, else the last circle, else the path before them. */
  function PathAfterFlows(p: seq<PathOp>, fs: seq<FlowJson>, width: real, height: real): seq<PathOp> {
    var n := DrawableFlows(fs);
    if n < |fs| then []
    else if n > 0 then FlowPath(fs[n - 1], width, height)
    else p
  }

  /** The path after the connections: the last line, else the path before them. */
  function PathAfterConnections(p: seq<PathOp>, cs: seq<ConnectionJson>, width: real, height: real): seq<PathOp> {
    if cs == [] then p else ConnectionPath(cs[|cs| - 1], width, height)
  }

  // ---------------------------------------------------------------------------
  // Properties

  /** A falsy strength (absent or 0) strokes at 0.5, a strength in (0, 1] at
      itself, any other at 1; the opacity is always a valid one. */
  lemma ConnectionAlphaCases(strength: Option<real>)
    ensures 0.0 <= ConnectionAlpha(strength) <= 1.0
    ensures !TruthyNumber(strength) ==> ConnectionAlpha(strength) == 0.5
    ensures TruthyNumber(strength) && 0.0 < strength.value <= 1.0 ==> ConnectionAlpha(strength) == strength.value
    ensures TruthyNumber(strength) && !(0.0 <= strength.value <= 1.0) ==> ConnectionAlpha(strength) == 1.0
  {
  }

  /** A flow without size or colour (or with 0 and "") is a green dot of radius 2. */
  lemma FlowDefaults(f: FlowJson)
    requires !TruthyNumber(f.size) && (f.color == None || f.color == Some(""))
    ensures FlowSize(f) == 2.0 && FlowColour(f) == TacticalRadar.Green
  {
  }

  /** Normalised coordinates span the bitmap, each axis by its own dimension:
      (0, 0) is the top-left corner, (1, 1) the bottom-right one, (0.5, 0.5) the centre,
      and a point's x does not depend on the height nor its y on the width. */
  lemma NormalisedCoordinates(p: Point, width: real, height: real, otherWidth: real, otherHeight: real)
    ensures Scaled(Point(0.0, 0.0), width, height) == XY(0.0, 0.0)
    ensures Scaled(Point(1.0, 1.0), width, height) == XY(width, height)
    ensures Scaled(Point(0.5, 0.5), width, height) == XY(width / 2.0, height / 2.0)
    ensures Scaled(p, width, height).x == Scaled(p, width, otherHeight).x
    ensures Scaled(p, width, height).y == Scaled(p, otherWidth, height).y
  {
  }

  /** A frame clears the bitmap first, then strokes one line per connection in
      order, then fills the flows up to the first one with a negative size. */
  lemma NetworkFrameOrder(width: nat, height: nat, st: TopologyState)
    ensures var cmds := NetworkCommands(width, height, st);
      var nc := |st.connections|;
      var nf := DrawableFlows(st.dataFlow);
      && |cmds| == 1 + nc + nf
      && cmds[0] == ClearRect(width as real, height as real)
      && (forall i :: 0 <= i < nc ==> cmds[1 + i] == ConnectionCommand(st.connections[i], width as real, height as real))
      && (forall i :: 0 <= i < nf ==> cmds[1 + nc + i] == FlowCommand(st.dataFlow[i], width as real, height as real))
  {
  }

  /** Every line is drawn beneath every dot: no stroke follows a fill. */
  lemma ConnectionsBeneathFlows(width: nat, height: nat, st: TopologyState)
    ensures var cmds := NetworkCommands(width, height, st);
      forall i, j :: 0 <= i < j < |cmds| && cmds[i].FillPath? ==> cmds[j].FillPath?
  {
    NetworkFrameOrder(width, height, st);
  }

  /** A frame strokes one line per connection, fills one dot per drawable flow and writes no text. */
  lemma NetworkFrameCounts(width: nat, height: nat, st: TopologyState)
    ensures var cmds := NetworkCommands(width, height, st);
      && CountStrokes(cmds) == |st.connections|
      && CountFills(cmds) == DrawableFlows(st.dataFlow)
      && CountTexts(cmds) == 0
  {
    var w := width as real;
    var h := height as real;
    var a := [ClearRect(w, h)];
    var b := ConnectionCommands(st.connections, w, h);
    var c := FlowCommands(st.dataFlow, w, h)[..DrawableFlows(st.dataFlow)];
    assert NetworkCommands(width, height, st) == a + b + c;
    CountsAppend(a, b);
    CountsAppend(a + b, c);
    assert a[..0] == [];
    CountsOfStrokes(b);
    CountsOfFills(c);
  }

  /** A flow with a negative size hides itself and every flow after it, valid or not. */
  lemma NegativeSizeEndsFrame(width: nat, height: nat, st: TopologyState, k: nat)
    requires k < |st.dataFlow| && FlowSize(st.dataFlow[k]) < 0.0
    ensures |NetworkCommands(width, height, st)| <= 1 + |st.connections| + k
  {
    NetworkFrameOrder(width, height, st);
  }

  // ---------------------------------------------------------------------------
  // The hook object

  class TopologyHook {
    const canvas: CanvasElement
    const context: Context2D
    const frames: FrameRegistry
    const ratio: real
    /** The handle of the last frame requested; 0 stands for `null`. */
    var animationFrameRequest: nat
    var connections: seq<ConnectionJson>
    var dataFlow: seq<FlowJson>

    /** The handle field names the only frame that can still be due, and every
        frame leaves the context fully opaque. */
    ghost predicate Valid()
      reads this, frames, context
    {
      && frames.Valid()
      && frames.due <= {animationFrameRequest}
      && animationFrameRequest < frames.next
      && context.style.globalAlpha == 1.0
    }

    function State(): TopologyState
      reads this
    {
      TopologyState(connections, dataFlow)
    }

    /** A frame is scheduled and has neither run nor been cancelled. */
    predicate Pending()
      reads this, frames
    {
      animationFrameRequest in frames.due
    }

    /** `mounted`: size the canvas to its wrapper for the device and start with no data. */
    constructor Mounted(rectWidth: real, rectHeight: real, devicePixelRatio: Option<real>, backingStorePixelRatio: Option<real>)
      ensures Valid() && fresh(canvas) && fresh(context) && fresh(frames)
      ensures ratio == TopologyPixelRatio(devicePixelRatio, backingStorePixelRatio)
      ensures canvas.width == DevicePixels(rectWidth, ratio, DefaultWidth) && canvas.height == DevicePixels(rectHeight, ratio, DefaultHeight)
      ensures canvas.cssWidth == rectWidth && canvas.cssHeight == rectHeight
      ensures animationFrameRequest == 0 && frames.due == {} && State() == MountedTopology
      ensures context.style == DefaultStyle && context.log == []
    {
      var registry := new FrameRegistry();
      var el := new CanvasElement();
      var ctx := new Context2D();
      var r := TopologyPixelRatio(devicePixelRatio, backingStorePixelRatio);
      ResizeCanvas(el, rectWidth, rectHeight, r);
      canvas, context, frames, ratio := el, ctx, registry, r;
      animationFrameRequest := 0;
      connections := [];
      dataFlow := [];
    }

    /** `resizeCanvas`: each bitmap dimension is the wrapper's layout size on that axis scaled by the ratio. */
    static method ResizeCanvas(el: CanvasElement, rectWidth: real, rectHeight: real, scale: real)
      modifies el
      ensures el.width == DevicePixels(rectWidth, scale, DefaultWidth) && el.height == DevicePixels(rectHeight, scale, DefaultHeight)
      ensures el.cssWidth == rectWidth && el.cssHeight == rectHeight
    {
      el.width := DevicePixels(rectWidth, scale, DefaultWidth);
      el.height := DevicePixels(rectHeight, scale, DefaultHeight);
      el.cssWidth := rectWidth;
      el.cssHeight := rectHeight;
    }

    /** `updated`: take the new snapshot (keeping both fields when it does not
        parse), cancel the frame still due, if any, and schedule exactly one new one. */
    method Updated(attr: Option<string>, parse: string -> Parsed<TopologyJson>)
      requires Valid()
      modifies this, frames
      ensures Valid()
      ensures State() == IngestTopology(old(State()), parse(AttributeText(attr)))
      ensures animationFrameRequest == old(frames.next) && animationFrameRequest !in old(frames.due)
      ensures frames.due == {animationFrameRequest} && frames.next == old(frames.next) + 1
    {
      var parsed := parse(AttributeText(attr));
      if parsed.Value? {
        var networkData := parsed.value;
        connections := if networkData.connections.Some? then networkData.connections.value else [];
        dataFlow := if networkData.dataFlow.Some? then networkData.dataFlow.value else [];
      }
      if animationFrameRequest != 0 {
        frames.Cancel(animationFrameRequest);
      }
      animationFrameRequest := frames.Request();
    }

    /** `destroyed`: cancel the frame still due, if any. The handle field is left as it is. */
    method Destroyed()
      requires Valid()
      modifies frames
      ensures Valid()
      ensures frames.due == old(frames.due) - {animationFrameRequest} && frames.due == {}
      ensures frames.next == old(frames.next)
    {
      if animationFrameRequest != 0 {
        frames.Cancel(animationFrameRequest);
      }
    }

    /** The display refreshes: the due callback, if there is one, runs once and
        renders the fields as they are now; an exception thrown by `arc` ends that
        callback and nothing else. */
    method AnimationFrame() returns (rendered: bool, completed: bool)
      requires Valid()
      modifies frames, context
      ensures Valid() && frames.due == {} && frames.next == old(frames.next)
      ensures rendered == old(Pending())
      ensures rendered ==> context.log == old(context.log) + NetworkCommands(canvas.width, canvas.height, State())
      ensures rendered ==> completed == (DrawableFlows(dataFlow) == |dataFlow|)
      ensures rendered ==> context.style == old(context.style).(strokeStyle := Colour(TacticalRadar.Green),
                                                                fillStyle := FillAfterFlows(Colour(TacticalRadar.Green), dataFlow),
                                                                lineWidth := 1.0)
      ensures rendered ==> context.path == PathAfterFlows(PathAfterConnections(old(context.path), connections, canvas.width as real, canvas.height as real),
                                                          dataFlow, canvas.width as real, canvas.height as real)
      ensures !rendered ==> unchanged(context) && !completed
    {
      rendered := frames.Dispatch(animationFrameRequest);
      completed := false;
      if rendered {
        completed := RenderNetwork();
      }
    }

    /** `renderNetwork`; `completed` is false when a data-flow marker made `arc` throw. */
    method RenderNetwork() returns (completed: bool)
      requires context.style.globalAlpha == 1.0
      modifies context
      ensures completed == (DrawableFlows(dataFlow) == |dataFlow|)
      ensures context.log == old(context.log) + NetworkCommands(canvas.width, canvas.height, State())
      ensures context.style == old(context.style).(strokeStyle := Colour(TacticalRadar.Green), fillStyle := FillAfterFlows(Colour(TacticalRadar.Green), dataFlow), lineWidth := 1.0)
      ensures context.path == PathAfterFlows(PathAfterConnections(old(context.path), connections, canvas.width as real, canvas.height as real),
                                             dataFlow, canvas.width as real, canvas.height as real)
    {
      context.ClearRect(canvas.width as real, canvas.height as real);
      context.SetStrokeStyle(Colour(TacticalRadar.Green));
      context.SetFillStyle(Colour(TacticalRadar.Green));
      context.SetLineWidth(1.0);
      DrawConnections();
      completed := DrawDataFlows();
    }

    /** The `forEach` over the connections. */
    method DrawConnections()
      requires context.style.globalAlpha == 1.0 && context.style.strokeStyle == Colour(TacticalRadar.Green) && context.style.lineWidth == 1.0
      modifies context
      ensures context.log == old(context.log) + ConnectionCommands(connections, canvas.width as real, canvas.height as real)
      ensures context.style == old(context.style)
      ensures context.path == PathAfterConnections(old(context.path), connections, canvas.width as real, canvas.height as real)
    {
      ghost var lines := ConnectionCommands(connections, canvas.width as real, canvas.height as real);
      for i := 0 to |connections|
        invariant context.log == old(context.log) + lines[..i]
        invariant context.style == old(context.style)
        invariant context.path == PathAfterConnections(old(context.path), connections[..i], canvas.width as real, canvas.height as real)
      {
        DrawConnection(connections[i]);
        assert lines[..i + 1] == lines[..i] + [lines[i]];
        assert connections[..i + 1][i] == connections[i];
      }
      assert lines[..|connections|] == lines;
      assert connections[..|connections|] == connections;
    }

    /** The `forEach` over the data-flow markers, which ends early when `arc` throws. */
    method DrawDataFlows() returns (completed: bool)
      requires context.style.globalAlpha == 1.0
      modifies context
      ensures completed == (DrawableFlows(dataFlow) == |dataFlow|)
      ensures context.log == old(context.log) + FlowCommands(dataFlow, canvas.width as real, canvas.height as real)[..DrawableFlows(dataFlow)]
      ensures context.style == old(context.style).(fillStyle := FillAfterFlows(old(context.style).fillStyle, dataFlow))
      ensures context.path == PathAfterFlows(old(context.path), dataFlow, canvas.width as real, canvas.height as real)
    {
      ghost var dots := FlowCommands(dataFlow, canvas.width as real, canvas.height as real);
      ghost var n := DrawableFlows(dataFlow);
      completed := true;
      var i := 0;
      while completed && i < |dataFlow|
        invariant i <= n
        invariant !completed ==> i == n < |dataFlow|
        invariant context.log == old(context.log) + dots[..i]
        invariant context.style == if completed && i == 0 then old(context.style)
                                   else old(context.style).(fillStyle := Colour(FlowColour(dataFlow[if completed then i - 1 else i])))
        invariant context.path == if !completed then [] else if i == 0 then old(context.path) else FlowPath(dataFlow[i - 1], canvas.width as real, canvas.height as real)
        decreases |dataFlow| - i, completed
      {
        var drawn := DrawDataFlow(dataFlow[i]);
        if drawn {
          assert dots[..i + 1] == dots[..i] + [dots[i]];
          i := i + 1;
        } else {
          completed := false;
        }
      }
    }

    method DrawConnection(connection: ConnectionJson)
      requires context.style.globalAlpha == 1.0
      modifies context
      ensures context.log == old(context.log) + [StrokePath(ConnectionPath(connection, canvas.width as real, canvas.height as real),
                                                           ConnectionAlpha(connection.strength), old(context.style).strokeStyle, old(context.style).lineWidth)]
      ensures context.style == old(context.style)
      ensures context.path == ConnectionPath(connection, canvas.width as real, canvas.height as real)
    {
      var x1 := Scale(connection.from.x, canvas.width as real);
      var y1 := Scale(connection.from.y, canvas.height as real);
      var x2 := Scale(connection.to.x, canvas.width as real);
      var y2 := Scale(connection.to.y, canvas.height as real);
      context.SetGlobalAlpha(OrNumber(connection.strength, 0.5));
      context.BeginPath();
      context.MoveTo(XY(x1, y1));
      context.LineTo(XY(x2, y2));
      assert context.path == ConnectionPath(connection, canvas.width as real, canvas.height as real);
      assert context.style.globalAlpha == ConnectionAlpha(connection.strength);
      context.Stroke();
      context.SetGlobalAlpha(1.0);
    }

    /** `drawDataFlow`; `drawn` is false when `arc` throws on a negative size,
        after the fill colour was set and the path begun. */
    method DrawDataFlow(flow: FlowJson) returns (drawn: bool)
      requires context.style.globalAlpha == 1.0
      modifies context
      ensures drawn == (FlowSize(flow) >= 0.0)
      ensures context.style == old(context.style).(fillStyle := Colour(FlowColour(flow)))
      ensures drawn ==> context.log == old(context.log) + [FlowCommand(flow, canvas.width as real, canvas.height as real)]
      ensures drawn ==> context.path == FlowPath(flow, canvas.width as real, canvas.height as real)
      ensures !drawn ==> context.log == old(context.log) && context.path == []
    {
      var x := Scale(flow.x, canvas.width as real);
      var y := Scale(flow.y, canvas.height as real);
      var size := OrNumber(flow.size, 2.0);
      context.SetFillStyle(Colour(OrString(flow.color, TacticalRadar.Green)));
      context.BeginPath();
      if size < 0.0 {
        // `arc` throws an IndexSizeError here.
        return false;
      }
      context.Arc(XY(x, y), size, NoTurn, FullTurn);
      assert context.path == FlowPath(flow, canvas.width as real, canvas.height as real);
      context.Fill();
      drawn := true;
    }
  }
}

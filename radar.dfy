/** The `tacticalRadar` hook: a square canvas showing four range rings,
    crosshairs, a sweep line, one marker per node and a system-health arc. */
module TacticalRadar {
  import opened Wrappers
  import opened Js
  import opened Frames
  import opened Canvas2D
  import opened Snapshot

  const Green := "#00ff00"
  const Amber := "#ffaa00"
  const Red := "#ff0000"
  const Grey := "#666666"
  const BaseFont := "12px monospace"
  const HealthFont := "bold 16px monospace"

  // ---------------------------------------------------------------------------
  // Pixel ratio and sizing

  /** The backing-store ratios a 2D context may report, standard and vendor-prefixed. */
  datatype BackingStore = BackingStore(standard: Option<real>, webkit: Option<real>, moz: Option<real>, ms: Option<real>, o: Option<real>)

  /** The first truthy backing-store ratio in the order the hook tries them, else 1. */
  function BackingStoreRatio(b: BackingStore): (r: real)
    ensures r != 0.0
    ensures TruthyNumber(b.standard) ==> r == b.standard.value
    ensures !TruthyNumber(b.standard) && TruthyNumber(b.webkit) ==> r == b.webkit.value
    ensures (!TruthyNumber(b.standard) && !TruthyNumber(b.webkit) && !TruthyNumber(b.moz)
             && !TruthyNumber(b.ms) && !TruthyNumber(b.o)) ==> r == 1.0
  {
    OrNumber(b.standard, OrNumber(b.webkit, OrNumber(b.moz, OrNumber(b.ms, OrNumber(b.o, OrNumber(b.standard, 1.0))))))
  }

  /** `getPixelRatio`: device pixels per layout pixel, normalised by the backing store. */
  function GetPixelRatio(devicePixelRatio: Option<real>, b: BackingStore): (ratio: real)
    ensures ratio * BackingStoreRatio(b) == OrNumber(devicePixelRatio, 1.0)
    ensures ratio != 0.0
  {
    OrNumber(devicePixelRatio, 1.0) / BackingStoreRatio(b)
  }

  // ---------------------------------------------------------------------------
  // Geometry and classification

  /** `Math.min(centerX, centerY) * 0.9` for a bitmap of the given size. */
  function MaxRadius(width: nat, height: nat): (r: real)
    ensures 0.0 <= r
    ensures r <= 0.45 * width as real && r <= 0.45 * height as real
    ensures r == 0.45 * width as real || r == 0.45 * height as real
  {
    Min(width as real / 2.0, height as real / 2.0) * 0.9
  }

  /** Radius of the k-th range ring. */
  function RingRadius(maxRadius: real, k: nat): real {
    (maxRadius / 4.0) * k as real
  }

  /** Node i of n sits at the fraction i/n of a full turn. */
  function NodeAngle(i: nat, n: nat): (a: Angle)
    requires i < n
    ensures a.Turns? && 0.0 <= a.turns < 1.0
    ensures a.turns * n as real == i as real
  {
    Turns(i as real / n as real)
  }

  /** `(node.distance || 0.7) * maxRadius`. */
  function NodeDistance(node: NodeJson, maxRadius: real): real {
    OrNumber(node.distance, 0.7) * maxRadius
  }

  /** `node.name || "N" + (index + 1)`. */
  function NodeLabel(node: NodeJson, index: nat): string {
    OrString(node.name, "N" + NatToDecimal(index + 1))
  }

  /** The status colour lookup: `let color = '#00ff00'` overridden for three named statuses. */
  function StatusColour(status: Option<string>): string {
    if status == Some("warning") then Amber
    else if status == Some("critical") then Red
    else if status == Some("offline") then Grey
    else Green
  }

  /** The health tier colour: two successive `if`s over a green default. */
  function HealthColour(health: Option<real>): string {
    var c1 := Green;
    var c2 := if health.Some? && health.value < 80.0 then Amber else c1;
    if health.Some? && health.value < 50.0 then Red else c2
  }

  /** Where the health arc ends: it starts a quarter turn back (at -π/2) and runs health/100 of a turn, unclamped. */
  function HealthArcEnd(health: real): Angle {
    Turns(-0.25 + health / 100.0)
  }

  /** `8 + Math.sin(Date.now() * 0.01) * 3`, given the sine. */
  function PulseRadius(sine: real): (r: real)
    ensures -1.0 <= sine <= 1.0 ==> 5.0 <= r <= 11.0
  {
    8.0 + sine * 3.0
  }

  /** The percentage text: `Math.round(health) + "%"`; an undefined health prints as NaN. */
  function HealthText(health: Option<real>): string {
    if health.Some? then IntToDecimal(Round(health.value)) + "%" else "NaN%"
  }

  // ---------------------------------------------------------------------------
  // What one frame draws

  function RingCommands(cx: real, cy: real, maxRadius: real): (cmds: seq<DrawCmd>)
    ensures |cmds| == 4
  {
    seq(4, k requires 0 <= k < 4 =>
      StrokePath([ArcOf(XY(cx, cy), RingRadius(maxRadius, k + 1), NoTurn, FullTurn)], 0.3, Colour(Green), 2.0))
  }

  function CrosshairPath(cx: real, cy: real, maxRadius: real): seq<PathOp> {
    [Move(XY(cx, cy - maxRadius)), Line(XY(cx, cy + maxRadius)),
     Move(XY(cx - maxRadius, cy)), Line(XY(cx + maxRadius, cy))]
  }

  function SweepTip(cx: real, cy: real, maxRadius: real, sweepAngle: real): Pos {
    Polar(cx, cy, maxRadius, Radians(sweepAngle), 0.0, 0.0)
  }

  function SweepPath(cx: real, cy: real, maxRadius: real, sweepAngle: real): seq<PathOp> {
    [Move(XY(cx, cy)), Line(SweepTip(cx, cy, maxRadius, sweepAngle))]
  }

  function SweepCommand(cx: real, cy: real, maxRadius: real, sweepAngle: real): DrawCmd {
    StrokePath(SweepPath(cx, cy, maxRadius, sweepAngle), 1.0,
      SweepGradient(XY(cx, cy), SweepTip(cx, cy, maxRadius, sweepAngle)), 3.0)
  }

  function NodePos(node: NodeJson, i: nat, n: nat, cx: real, cy: real, maxRadius: real): Pos
    requires i < n
  {
    Polar(cx, cy, NodeDistance(node, maxRadius), NodeAngle(i, n), 0.0, 0.0)
  }

  /** The marker radius last put on the path for a node: the pulse ring for a critical node, else the disc. */
  function NodeLastRadius(node: NodeJson, pulseSine: real): real {
    if node.status == Some("critical") then PulseRadius(pulseSine) else 4.0
  }

  /** What the `forEach` body draws for node i of n: a disc, a pulse ring when critical, and the label. */
  function NodeCommands(node: NodeJson, i: nat, n: nat, cx: real, cy: real, maxRadius: real, pulseSine: real, align: string): seq<DrawCmd>
    requires i < n
  {
    var p := NodePos(node, i, n, cx, cy, maxRadius);
    var c := Colour(StatusColour(node.status));
    [FillPath([ArcOf(p, 4.0, NoTurn, FullTurn)], 1.0, c)]
    + (if node.status == Some("critical")
       then [StrokePath([ArcOf(p, PulseRadius(pulseSine), NoTurn, FullTurn)], 0.3, c, 2.0)]
       else [])
    + [FillText(NodeLabel(node, i), Polar(cx, cy, NodeDistance(node, maxRadius), NodeAngle(i, n), 8.0, 4.0), 1.0, c, BaseFont, align)]
  }

  /** What the first k nodes draw. */
  function NodesCommands(nodes: seq<NodeJson>, k: nat, cx: real, cy: real, maxRadius: real, pulseSine: real, align: string): seq<DrawCmd>
    requires k <= |nodes|
  {
    if k == 0 then []
    else NodesCommands(nodes, k - 1, cx, cy, maxRadius, pulseSine, align)
         + NodeCommands(nodes[k - 1], k - 1, |nodes|, cx, cy, maxRadius, pulseSine, align)
  }

  /** The style after the first k nodes: fill and stroke carry the last node's colour. */
  function StyleAfterNodes(s: Style, nodes: seq<NodeJson>, k: nat): Style
    requires k <= |nodes|
  {
    if k == 0 then s
    else s.(fillStyle := Colour(StatusColour(nodes[k - 1].status)), strokeStyle := Colour(StatusColour(nodes[k - 1].status)))
  }

  /** The path after the first k nodes: the last marker circle drawn. */
  function PathAfterNodes(p: seq<PathOp>, nodes: seq<NodeJson>, k: nat, cx: real, cy: real, maxRadius: real, pulseSine: real): seq<PathOp>
    requires k <= |nodes|
  {
    if k == 0 then p
    else [ArcOf(NodePos(nodes[k - 1], k - 1, |nodes|, cx, cy, maxRadius), NodeLastRadius(nodes[k - 1], pulseSine), NoTurn, FullTurn)]
  }

  function HealthRadius(maxRadius: real): real {
    maxRadius * 0.95
  }

  /** The path of the health arc; with an undefined health its end angle is NaN and `arc` adds nothing. */
  function HealthArcPath(cx: real, cy: real, maxRadius: real, health: Option<real>): seq<PathOp> {
    if health.Some? then [ArcOf(XY(cx, cy), HealthRadius(maxRadius), Turns(-0.25), HealthArcEnd(health.value))] else []
  }

  function HealthCommands(cx: real, cy: real, maxRadius: real, health: Option<real>): (cmds: seq<DrawCmd>)
    ensures |cmds| == 4
  {
    var c := Colour(HealthColour(health));
    [StrokePath([ArcOf(XY(cx, cy), HealthRadius(maxRadius), NoTurn, FullTurn)], 0.2, Colour("#333333"), 8.0),
     StrokePath(HealthArcPath(cx, cy, maxRadius, health), 0.8, c, 8.0),
     FillText(HealthText(health), XY(cx, cy - 10.0), 1.0, c, HealthFont, "center"),
     FillText("SYSTEM HEALTH", XY(cx, cy + 10.0), 1.0, c, HealthFont, "center")]
  }

  /** What `renderRadar` draws around centre (cx, cy) with outer radius mr, in order. */
  function FrameAt(width: nat, height: nat, cx: real, cy: real, mr: real, st: RadarState, pulseSine: real, align: string): seq<DrawCmd> {
    [ClearRect(width as real, height as real)]
    + RingCommands(cx, cy, mr)
    + [StrokePath(CrosshairPath(cx, cy, mr), 0.3, Colour(Green), 2.0)]
    + [SweepCommand(cx, cy, mr, st.sweepAngle)]
    + NodesCommands(st.nodes, |st.nodes|, cx, cy, mr, pulseSine, align)
    + HealthCommands(cx, cy, mr, st.systemHealth)
  }

  /** Everything `renderRadar` draws on a width × height bitmap, in order. `align`
      is the text alignment the context had before the frame: node labels use it. */
  function RadarCommands(width: nat, height: nat, st: RadarState, pulseSine: real, align: string): seq<DrawCmd> {
    FrameAt(width, height, width as real / 2.0, height as real / 2.0, MaxRadius(width, height), st, pulseSine, align)
  }

  /** The context style a frame leaves behind: opacity and font restored, the
      alignment set to "left", while line width and colours keep the health arc's. */
  function StyleAfterRadar(health: Option<real>): Style {
    Style(1.0, Colour(HealthColour(health)), Colour(HealthColour(health)), 8.0, BaseFont, "left")
  }

  /** Appending the parts of a frame one after the other appends the frame. */
  lemma FrameAppended(log: seq<DrawCmd>, width: nat, height: nat, cx: real, cy: real, mr: real, st: RadarState, pulseSine: real, align: string)
    ensures log + [ClearRect(width as real, height as real)] + RingCommands(cx, cy, mr)
      + [StrokePath(CrosshairPath(cx, cy, mr), 0.3, Colour(Green), 2.0)] + [SweepCommand(cx, cy, mr, st.sweepAngle)]
      + NodesCommands(st.nodes, |st.nodes|, cx, cy, mr, pulseSine, align) + HealthCommands(cx, cy, mr, st.systemHealth)
      == log + FrameAt(width, height, cx, cy, mr, st, pulseSine, align)
  {
  }

  /** Appending four commands one by one appends the four of them. */
  lemma AppendFour(log: seq<DrawCmd>, a: DrawCmd, b: DrawCmd, c: DrawCmd, d: DrawCmd)
    ensures log + [a] + [b] + [c] + [d] == log + [a, b, c, d]
  {
  }

  // ---------------------------------------------------------------------------
  // Properties of the pure helpers

  /** The node colour is a total lookup: three named statuses, green for everything else. */
  lemma StatusColourLookup(status: Option<string>)
    ensures StatusColour(status) == Amber <==> status == Some("warning")
    ensures StatusColour(status) == Red <==> status == Some("critical")
    ensures StatusColour(status) == Grey <==> status == Some("offline")
    ensures StatusColour(status) == Green <==> status !in {Some("warning"), Some("critical"), Some("offline")}
  {
  }

  /** Health tiers: green from 80 up, amber from 50 below 80, red below 50; undefined health is green. */
  lemma HealthColourTiers(health: Option<real>)
    ensures HealthColour(health) == Green <==> (health.None? || health.value >= 80.0)
    ensures HealthColour(health) == Amber <==> (health.Some? && 50.0 <= health.value < 80.0)
    ensures HealthColour(health) == Red <==> (health.Some? && health.value < 50.0)
  {
  }

  /** The end angle handed to `arc` is health/100 of a turn past the start at the
      top (a quarter turn back), and it is not clamped. */
  lemma HealthArcExtent(health: real)
    ensures HealthArcEnd(health).turns - (-0.25) == health / 100.0
    ensures health == 100.0 ==> HealthArcEnd(health) == Turns(0.75)
    ensures health > 100.0 ==> HealthArcEnd(health).turns > 0.75
    ensures health < 0.0 ==> HealthArcEnd(health).turns < -0.25
  {
  }

  /** What the clockwise health arc covers: a health of 100 or more draws the
      whole ring and no more, one in [0, 100) draws health/100 of it, and a
      negative one runs clockwise round to the end point: 1 + health/100 of the
      ring above -100, the whole ring at -100. Only a health of 0, which a
      parsed snapshot never stores, draws nothing. */
  lemma HealthArcSweep(health: real)
    ensures health >= 100.0 ==> ClockwiseSweep(-0.25, HealthArcEnd(health).turns) == 1.0
    ensures 0.0 <= health < 100.0 ==> ClockwiseSweep(-0.25, HealthArcEnd(health).turns) == health / 100.0
    ensures -100.0 < health < 0.0 ==> ClockwiseSweep(-0.25, HealthArcEnd(health).turns) == 1.0 + health / 100.0
    ensures health == -100.0 ==> ClockwiseSweep(-0.25, HealthArcEnd(health).turns) == 1.0
    ensures health < 0.0 ==> ClockwiseSweep(-0.25, HealthArcEnd(health).turns)
                             == 1.0 - ((-health / 100.0) - (-health / 100.0).Floor as real)
    ensures ClockwiseSweep(-0.25, HealthArcEnd(health).turns) == 0.0 <==> health == 0.0
  {
    var d := HealthArcEnd(health).turns - (-0.25);
    assert d == health / 100.0;
    if -100.0 < health < 0.0 {
      assert 0.0 < -d < 1.0;
      assert (-d).Floor == 0;
    } else if health == -100.0 {
      assert -d == 1.0;
      assert (-d).Floor == 1;
    }
  }

  /** Read back, the percentage text of any health is an optional '-', the
      digits of the rounded health's magnitude, and '%'. */
  lemma HealthTextReadsBack(health: real)
    ensures var text := HealthText(Some(health));
      var r := Round(health);
      var digits := text[(if r < 0 then 1 else 0)..|text| - 1];
      && |text| >= 2 && text[|text| - 1] == '%'
      && (text[0] == '-' <==> r < 0)
      && |digits| > 0 && IsDigits(digits)
      && DecimalValue(digits) == (if r < 0 then -r else r)
  {
    var r := Round(health);
    var magnitude: nat := if r < 0 then -r else r;
    var digits := NatToDecimal(magnitude);
    var sign := if r < 0 then "-" else "";
    assert HealthText(Some(health)) == sign + digits + "%";
    assert (sign + digits + "%")[|sign|..|sign| + |digits|] == digits;
    DecimalRoundTrip(magnitude);
  }

  /** Nodes are spread evenly: consecutive nodes are 1/n of a turn apart, the first at angle 0. */
  lemma NodeAnglesEvenlySpaced(i: nat, n: nat)
    requires i + 1 < n
    ensures NodeAngle(0, n) == Turns(0.0)
    ensures NodeAngle(i + 1, n).turns - NodeAngle(i, n).turns == 1.0 / n as real
  {
  }

  /** A node with no fields is green, at 0.7 of the radius, labelled "N" and its 1-based index, and has no pulse ring. */
  lemma DefaultNodeDrawing(i: nat, n: nat, cx: real, cy: real, maxRadius: real, pulseSine: real, align: string)
    requires i < n
    ensures var node := NodeJson(None, None, None);
      && StatusColour(node.status) == Green
      && NodeDistance(node, maxRadius) == 0.7 * maxRadius
      && NodeLabel(node, i) == "N" + NatToDecimal(i + 1)
      && NodeCommands(node, i, n, cx, cy, maxRadius, pulseSine, align)
         == [FillPath([ArcOf(Polar(cx, cy, 0.7 * maxRadius, Turns(i as real / n as real), 0.0, 0.0), 4.0, NoTurn, FullTurn)], 1.0, Colour(Green)),
             FillText("N" + NatToDecimal(i + 1), Polar(cx, cy, 0.7 * maxRadius, Turns(i as real / n as real), 8.0, 4.0), 1.0, Colour(Green), BaseFont, align)]
  {
  }

  /** The radar is square on a square bitmap: the outer ring touches 0.9 of the half-side,
      the rings grow evenly, and the health ring lies inside the outer ring. */
  lemma RadarGeometry(width: nat, height: nat)
    ensures var mr := MaxRadius(width, height);
      && (width == height ==> mr == 0.45 * width as real)
      && RingRadius(mr, 4) == mr
      && (forall k: nat :: 1 <= k < 4 ==> RingRadius(mr, k + 1) - RingRadius(mr, k) == mr / 4.0)
      && 0.0 <= HealthRadius(mr) <= mr
  {
  }

  /** `getPixelRatio` with no backing-store ratio reported is the device pixel ratio, or 1 without one. */
  lemma PixelRatioWithoutBackingStore(devicePixelRatio: Option<real>)
    ensures GetPixelRatio(devicePixelRatio, BackingStore(None, None, None, None, None)) == OrNumber(devicePixelRatio, 1.0)
    ensures GetPixelRatio(None, BackingStore(None, None, None, None, None)) == 1.0
  {
  }

  // ---------------------------------------------------------------------------
  // Properties of a frame

  /** The number of critical nodes among the first k. */
  function Criticals(nodes: seq<NodeJson>, k: nat): (c: nat)
    requires k <= |nodes|
    ensures c <= k
  {
    if k == 0 then 0 else Criticals(nodes, k - 1) + (if nodes[k - 1].status == Some("critical") then 1 else 0)
  }

  /** One node draws one disc, one label, and a pulse ring exactly when it is critical. */
  lemma NodeCommandCounts(node: NodeJson, i: nat, n: nat, cx: real, cy: real, maxRadius: real, pulseSine: real, align: string)
    requires i < n
    ensures var cmds := NodeCommands(node, i, n, cx, cy, maxRadius, pulseSine, align);
      && CountFills(cmds) == 1
      && CountTexts(cmds) == 1
      && CountStrokes(cmds) == (if node.status == Some("critical") then 1 else 0)
      && |cmds| == 2 + CountStrokes(cmds)
  {
    var cmds := NodeCommands(node, i, n, cx, cy, maxRadius, pulseSine, align);
    var disc := cmds[..1];
    var rest := cmds[1..];
    assert cmds == disc + rest;
    CountsAppend(disc, rest);
    assert rest == rest[..|rest| - 1] + [rest[|rest| - 1]];
    assert disc == [] + [disc[0]];
    assert rest[..|rest| - 1] == [] || rest[..|rest| - 1] == [] + [rest[0]];
  }

  /** The first k nodes draw k discs, k labels and one pulse ring per critical node. */
  lemma {:induction false} NodesCommandCounts(nodes: seq<NodeJson>, k: nat, cx: real, cy: real, maxRadius: real, pulseSine: real, align: string)
    requires k <= |nodes|
    ensures var cmds := NodesCommands(nodes, k, cx, cy, maxRadius, pulseSine, align);
      && CountFills(cmds) == k
      && CountTexts(cmds) == k
      && CountStrokes(cmds) == Criticals(nodes, k)
      && |cmds| == 2 * k + Criticals(nodes, k)
  {
    if k > 0 {
      NodesCommandCounts(nodes, k - 1, cx, cy, maxRadius, pulseSine, align);
      NodeCommandCounts(nodes[k - 1], k - 1, |nodes|, cx, cy, maxRadius, pulseSine, align);
      CountsAppend(NodesCommands(nodes, k - 1, cx, cy, maxRadius, pulseSine, align),
                   NodeCommands(nodes[k - 1], k - 1, |nodes|, cx, cy, maxRadius, pulseSine, align));
    }
  }

  /** Node i's disc is drawn at offset 2i + (critical nodes before it), at angle i/n and
      radius (distance || 0.7)·maxRadius, in its status colour; its label follows its pulse ring, if any. */
  lemma {:induction false} NodeDrawnInPlace(nodes: seq<NodeJson>, i: nat, k: nat, cx: real, cy: real, maxRadius: real, pulseSine: real, align: string)
    requires i < k <= |nodes|
    ensures var cmds := NodesCommands(nodes, k, cx, cy, maxRadius, pulseSine, align);
      var at := 2 * i + Criticals(nodes, i);
      var node := nodes[i];
      var labelAt := at + (if node.status == Some("critical") then 2 else 1);
      && labelAt < |cmds|
      && cmds[at] == FillPath([ArcOf(Polar(cx, cy, NodeDistance(node, maxRadius), Turns(i as real / |nodes| as real), 0.0, 0.0), 4.0, NoTurn, FullTurn)],
                              1.0, Colour(StatusColour(node.status)))
      && cmds[labelAt] == FillText(NodeLabel(node, i), Polar(cx, cy, NodeDistance(node, maxRadius), Turns(i as real / |nodes| as real), 8.0, 4.0),
                                   1.0, Colour(StatusColour(node.status)), BaseFont, align)
  {
    var prefix := NodesCommands(nodes, k - 1, cx, cy, maxRadius, pulseSine, align);
    if i < k - 1 {
      NodeDrawnInPlace(nodes, i, k - 1, cx, cy, maxRadius, pulseSine, align);
    } else {
      NodesCommandCounts(nodes, i, cx, cy, maxRadius, pulseSine, align);
    }
  }

  /** A frame with no nodes draws only the chrome: clear, four rings, crosshairs, sweep and the health display. */
  lemma EmptyRadarFrame(width: nat, height: nat, cx: real, cy: real, mr: real, st: RadarState, pulseSine: real, align: string)
    requires st.nodes == []
    ensures |FrameAt(width, height, cx, cy, mr, st, pulseSine, align)| == 11
    ensures CountFills(FrameAt(width, height, cx, cy, mr, st, pulseSine, align)) == 0
  {
    RadarFrameCounts(width, height, cx, cy, mr, st, pulseSine, align);
  }

  /** The fixed parts of a frame: four ring strokes, the crosshair and sweep strokes, and the health display's two strokes and two texts. */
  lemma ChromeCounts(cx: real, cy: real, mr: real, sweepAngle: real, health: Option<real>)
    ensures var rings := RingCommands(cx, cy, mr);
      var cross := [StrokePath(CrosshairPath(cx, cy, mr), 0.3, Colour(Green), 2.0)];
      var sweep := [SweepCommand(cx, cy, mr, sweepAngle)];
      var display := HealthCommands(cx, cy, mr, health);
      && CountStrokes(rings) == 4 && CountFills(rings) == 0 && CountTexts(rings) == 0
      && CountStrokes(cross) == 1 && CountFills(cross) == 0 && CountTexts(cross) == 0
      && CountStrokes(sweep) == 1 && CountFills(sweep) == 0 && CountTexts(sweep) == 0
      && CountStrokes(display) == 2 && CountFills(display) == 0 && CountTexts(display) == 2
  {
    CountsOfStrokes(RingCommands(cx, cy, mr));
    CountsOfStrokes([StrokePath(CrosshairPath(cx, cy, mr), 0.3, Colour(Green), 2.0)]);
    CountsOfStrokes([SweepCommand(cx, cy, mr, sweepAngle)]);
    var f := HealthCommands(cx, cy, mr, health);
    assert f == f[..2] + f[2..];
    CountsAppend(f[..2], f[2..]);
    CountsOfStrokes(f[..2]);
    CountsOfTexts(f[2..]);
  }

  /** How many strokes, fills and texts one frame draws (`RadarCommands` is this
      frame around the bitmap's centre with radius `MaxRadius`). */
  lemma RadarFrameCounts(width: nat, height: nat, cx: real, cy: real, mr: real, st: RadarState, pulseSine: real, align: string)
    ensures var cmds := FrameAt(width, height, cx, cy, mr, st, pulseSine, align);
      var n := |st.nodes|;
      && CountStrokes(cmds) == 8 + Criticals(st.nodes, n)
      && CountFills(cmds) == n
      && CountTexts(cmds) == n + 2
      && |cmds| == 11 + 2 * n + Criticals(st.nodes, n)
  {
    var a := [ClearRect(width as real, height as real)];
    var b := RingCommands(cx, cy, mr);
    var c := [StrokePath(CrosshairPath(cx, cy, mr), 0.3, Colour(Green), 2.0)];
    var d := [SweepCommand(cx, cy, mr, st.sweepAngle)];
    var e := NodesCommands(st.nodes, |st.nodes|, cx, cy, mr, pulseSine, align);
    var f := HealthCommands(cx, cy, mr, st.systemHealth);
    CountsOfParts(a, b, c, d, e, f);
    assert CountStrokes(a) == 0 && CountFills(a) == 0 && CountTexts(a) == 0 by {
      assert a[..0] == [];
    }
    ChromeCounts(cx, cy, mr, st.sweepAngle, st.systemHealth);
    NodesCommandCounts(st.nodes, |st.nodes|, cx, cy, mr, pulseSine, align);
  }

  /** The order of a frame: clear first, then the four rings from the innermost to the
      outermost, the crosshairs, the sweep, the nodes and last the health display. */
  lemma RadarFrameOrder(width: nat, height: nat, cx: real, cy: real, mr: real, st: RadarState, pulseSine: real, align: string)
    ensures var cmds := FrameAt(width, height, cx, cy, mr, st, pulseSine, align);
      && |cmds| >= 11
      && cmds[0] == ClearRect(width as real, height as real)
      && (forall k: nat :: 1 <= k <= 4 ==>
            cmds[k] == StrokePath([ArcOf(XY(cx, cy), RingRadius(mr, k), NoTurn, FullTurn)], 0.3, Colour(Green), 2.0))
      && cmds[5] == StrokePath(CrosshairPath(cx, cy, mr), 0.3, Colour(Green), 2.0)
      && cmds[6] == SweepCommand(cx, cy, mr, st.sweepAngle)
      && cmds[7..|cmds| - 4] == NodesCommands(st.nodes, |st.nodes|, cx, cy, mr, pulseSine, align)
      && cmds[|cmds| - 4..] == HealthCommands(cx, cy, mr, st.systemHealth)
  {
    var head := [ClearRect(width as real, height as real)] + RingCommands(cx, cy, mr)
      + [StrokePath(CrosshairPath(cx, cy, mr), 0.3, Colour(Green), 2.0)] + [SweepCommand(cx, cy, mr, st.sweepAngle)];
    var e := NodesCommands(st.nodes, |st.nodes|, cx, cy, mr, pulseSine, align);
    var f := HealthCommands(cx, cy, mr, st.systemHealth);
    var cmds := FrameAt(width, height, cx, cy, mr, st, pulseSine, align);
    assert cmds == head + e + f;
    assert |head| == 7;
    assert cmds[..7] == head;
    assert cmds[7..|cmds| - 4] == e;
  }

  /** The end-to-end example: one critical node "A" at distance 0.5, sweep 0, health 42
      draws one red disc at angle 0 and radius 0.5·maxRadius, a pulse ring, the label "A",
      and a red health display (42 is below 50). */
  lemma CriticalNodeExample(prev: RadarState, cx: real, cy: real, maxRadius: real, pulseSine: real, align: string)
    ensures var st := IngestRadar(prev, Value(RadarJson(Some([NodeJson(Some("A"), Some("critical"), Some(0.5))]), Some(0.0), Some(42.0))));
      var at := Polar(cx, cy, 0.5 * maxRadius, Turns(0.0), 0.0, 0.0);
      && st.sweepAngle == 0.0
      && NodesCommands(st.nodes, |st.nodes|, cx, cy, maxRadius, pulseSine, align)
         == [FillPath([ArcOf(at, 4.0, NoTurn, FullTurn)], 1.0, Colour(Red)),
             StrokePath([ArcOf(at, PulseRadius(pulseSine), NoTurn, FullTurn)], 0.3, Colour(Red), 2.0),
             FillText("A", Polar(cx, cy, 0.5 * maxRadius, Turns(0.0), 8.0, 4.0), 1.0, Colour(Red), BaseFont, align)]
      && HealthColour(st.systemHealth) == Red
  {
  }

  // ---------------------------------------------------------------------------
  // The hook object

  class RadarHook {
    const canvas: CanvasElement
    const context: Context2D
    /** The browser's animation-frame registry, as this hook sees it. */
    const frames: FrameRegistry
    const ratio: real
    /** The pending frame handle; 0 stands for `null`. */
    var animationFrameRequest: nat
    var nodes: seq<NodeJson>
    var sweepAngle: real
    var systemHealth: Option<real>

    /** At most one frame is due, and it is the one the hook holds; opacity is 1 between calls. */
    ghost predicate Valid()
      reads this, frames, context
    {
      && frames.Valid()
      && frames.due <= {animationFrameRequest}
      && animationFrameRequest < frames.next
      && context.style.globalAlpha == 1.0
    }

    function State(): RadarState
      reads this
    {
      RadarState(nodes, sweepAngle, systemHealth)
    }

    /** A frame is scheduled and has neither run nor been cancelled. */
    predicate Pending()
      reads this, frames
    {
      animationFrameRequest in frames.due
    }

    /** `mounted`: size the canvas for the device and start with empty data. */
    constructor Mounted(clientWidth: nat, clientHeight: nat, devicePixelRatio: Option<real>, store: BackingStore)
      ensures Valid() && fresh(canvas) && fresh(context) && fresh(frames)
      ensures ratio == GetPixelRatio(devicePixelRatio, store)
      ensures canvas.width == DevicePixels(Min(clientWidth as real, clientHeight as real), ratio, DefaultWidth)
      ensures canvas.height == DevicePixels(Min(clientWidth as real, clientHeight as real), ratio, DefaultHeight)
      ensures canvas.cssWidth == Min(clientWidth as real, clientHeight as real) && canvas.cssHeight == canvas.cssWidth
      ensures animationFrameRequest == 0 && frames.due == {} && State() == MountedRadar
      ensures context.style == DefaultStyle && context.log == []
    {
      var registry := new FrameRegistry();
      var el := new CanvasElement();
      var ctx := new Context2D();
      var r := GetPixelRatio(devicePixelRatio, store);
      ResizeCanvas(el, clientWidth, clientHeight, r);
      canvas, context, frames, ratio := el, ctx, registry, r;
      animationFrameRequest := 0;
      sweepAngle := 0.0;
      nodes := [];
      systemHealth := None;
    }

    /** `resizeCanvas`: a square bitmap whose side is the smaller client dimension scaled by the ratio. */
    static method ResizeCanvas(el: CanvasElement, clientWidth: nat, clientHeight: nat, scale: real)
      modifies el
      ensures el.width == DevicePixels(Min(clientWidth as real, clientHeight as real), scale, DefaultWidth)
      ensures el.height == DevicePixels(Min(clientWidth as real, clientHeight as real), scale, DefaultHeight)
      ensures var p := Min(clientWidth as real, clientHeight as real) * scale;
        0.0 <= p < (MaxReflected + 1) as real ==> el.height == el.width
      ensures el.cssWidth == Min(clientWidth as real, clientHeight as real) && el.cssHeight == el.cssWidth
    {
      var size := Min(clientWidth as real, clientHeight as real);
      el.width := DevicePixels(size, scale, DefaultWidth);
      el.height := DevicePixels(size, scale, DefaultHeight);
      el.cssWidth := size;
      el.cssHeight := size;
    }

    /** `updated`: take the new snapshot (keeping every field when it does not
        parse), cancel the frame still due, if any, and schedule exactly one new one. */
    method Updated(attr: Option<string>, parse: string -> Parsed<RadarJson>)
      requires Valid()
      modifies this, frames
      ensures Valid()
      ensures State() == IngestRadar(old(State()), parse(AttributeText(attr)))
      ensures animationFrameRequest == old(frames.next) && animationFrameRequest !in old(frames.due)
      ensures frames.due == {animationFrameRequest} && frames.next == old(frames.next) + 1
    {
      var parsed := parse(AttributeText(attr));
      if parsed.Value? {
        var radarData := parsed.value;
        nodes := if radarData.nodes.Some? then radarData.nodes.value else [];
        sweepAngle := OrNumber(radarData.sweepAngle, 0.0);
        systemHealth := Some(OrNumber(radarData.systemHealth, 100.0));
      }
      if animationFrameRequest != 0 {
        frames.Cancel(animationFrameRequest);
      }
      animationFrameRequest := frames.Request();
    }

    /** `destroyed`: cancel the frame still due, if any. The handle field is left as it is. */
    method Destroyed()
      requires Valid()
      modifies frames
      ensures Valid()
      ensures frames.due == old(frames.due) - {animationFrameRequest} && frames.due == {}
      ensures frames.next == old(frames.next)
    {
      if animationFrameRequest != 0 {
        frames.Cancel(animationFrameRequest);
      }
    }

    /** The display refreshes: the due callback, if there is one, runs once and renders the fields as they are now. */
    method AnimationFrame(pulseSine: real) returns (rendered: bool)
      requires Valid() && -1.0 <= pulseSine <= 1.0
      modifies frames, context
      ensures Valid() && frames.due == {} && frames.next == old(frames.next)
      ensures rendered == old(Pending())
      ensures rendered ==>
        context.log == old(context.log) + RadarCommands(canvas.width, canvas.height, State(), pulseSine, old(context.style.textAlign))
      ensures rendered ==> context.style == StyleAfterRadar(systemHealth)
      ensures rendered ==> context.path == HealthArcPath(canvas.width as real / 2.0, canvas.height as real / 2.0,
                                                         MaxRadius(canvas.width, canvas.height), systemHealth)
      ensures !rendered ==> unchanged(context)
    {
      rendered := frames.Dispatch(animationFrameRequest);
      if rendered {
        RenderRadar(pulseSine);
      }
    }

    /** `renderRadar`. */
    method RenderRadar(pulseSine: real)
      requires -1.0 <= pulseSine <= 1.0
      modifies context
      ensures context.log == old(context.log)
        + FrameAt(canvas.width, canvas.height, canvas.width as real / 2.0, canvas.height as real / 2.0,
                  MaxRadius(canvas.width, canvas.height), State(), pulseSine, old(context.style.textAlign))
      ensures context.style == StyleAfterRadar(systemHealth)
      ensures context.path == HealthArcPath(canvas.width as real / 2.0, canvas.height as real / 2.0,
                                            MaxRadius(canvas.width, canvas.height), systemHealth)
    {
      var centerX := canvas.width as real / 2.0;
      var centerY := canvas.height as real / 2.0;
      var maxRadius := MaxRadius(canvas.width, canvas.height);
      ghost var align := context.style.textAlign;
      context.ClearRect(canvas.width as real, canvas.height as real);
      context.SetStrokeStyle(Colour(Green));
      context.SetFillStyle(Colour(Green));
      context.SetLineWidth(2.0);
      context.SetFont(BaseFont);
      DrawRadarRings(centerX, centerY, maxRadius);
      DrawCrosshairs(centerX, centerY, maxRadius);
      DrawRadarSweep(centerX, centerY, maxRadius);
      DrawNodes(centerX, centerY, maxRadius, pulseSine);
      DrawHealthIndicator(centerX, centerY, maxRadius);
      FrameAppended(old(context.log), canvas.width, canvas.height, centerX, centerY, maxRadius, State(), pulseSine, align);
    }

    method DrawRadarRings(cx: real, cy: real, maxRadius: real)
      requires maxRadius >= 0.0
      requires context.style.strokeStyle == Colour(Green) && context.style.lineWidth == 2.0
      modifies context
      ensures context.log == old(context.log) + RingCommands(cx, cy, maxRadius)
      ensures context.style == old(context.style).(globalAlpha := 1.0)
      ensures context.path == [ArcOf(XY(cx, cy), maxRadius, NoTurn, FullTurn)]
    {
      ghost var rings := RingCommands(cx, cy, maxRadius);
      for i := 1 to 5
        invariant context.log == old(context.log) + rings[..i - 1]
        invariant context.style == if i == 1 then old(context.style) else old(context.style).(globalAlpha := 0.3)
        invariant i > 1 ==> context.path == [ArcOf(XY(cx, cy), RingRadius(maxRadius, i - 1), NoTurn, FullTurn)]
      {
        var radius := (maxRadius / 4.0) * i as real;
        context.SetGlobalAlpha(0.3);
        context.BeginPath();
        context.Arc(XY(cx, cy), radius, NoTurn, FullTurn);
        assert context.path == [ArcOf(XY(cx, cy), RingRadius(maxRadius, i), NoTurn, FullTurn)];
        context.Stroke();
        assert rings[i - 1] == StrokePath(context.path, 0.3, Colour(Green), 2.0);
        assert rings[..i] == rings[..i - 1] + [rings[i - 1]];
      }
      context.SetGlobalAlpha(1.0);
    }

    method DrawCrosshairs(cx: real, cy: real, maxRadius: real)
      requires context.style.strokeStyle == Colour(Green) && context.style.lineWidth == 2.0
      modifies context
      ensures context.log == old(context.log) + [StrokePath(CrosshairPath(cx, cy, maxRadius), 0.3, Colour(Green), 2.0)]
      ensures context.style == old(context.style).(globalAlpha := 1.0)
      ensures context.path == CrosshairPath(cx, cy, maxRadius)
    {
      context.SetGlobalAlpha(0.3);
      context.BeginPath();
      context.MoveTo(XY(cx, cy - maxRadius));
      context.LineTo(XY(cx, cy + maxRadius));
      context.MoveTo(XY(cx - maxRadius, cy));
      context.LineTo(XY(cx + maxRadius, cy));
      assert context.path == CrosshairPath(cx, cy, maxRadius);
      context.Stroke();
      context.SetGlobalAlpha(1.0);
    }

    method DrawRadarSweep(cx: real, cy: real, maxRadius: real)
      requires context.style.globalAlpha == 1.0
      modifies context
      ensures context.log == old(context.log) + [SweepCommand(cx, cy, maxRadius, sweepAngle)]
      ensures context.style == old(context.style).(strokeStyle := Colour(Green), lineWidth := 2.0)
      ensures context.path == SweepPath(cx, cy, maxRadius, sweepAngle)
    {
      var tip := SweepTip(cx, cy, maxRadius, sweepAngle);
      context.SetStrokeStyle(SweepGradient(XY(cx, cy), tip));
      context.SetLineWidth(3.0);
      context.BeginPath();
      context.MoveTo(XY(cx, cy));
      context.LineTo(tip);
      assert context.path == SweepPath(cx, cy, maxRadius, sweepAngle);
      context.Stroke();
      context.SetStrokeStyle(Colour(Green));
      context.SetLineWidth(2.0);
    }

    method DrawNodes(cx: real, cy: real, maxRadius: real, pulseSine: real)
      requires -1.0 <= pulseSine <= 1.0
      requires context.style.globalAlpha == 1.0 && context.style.lineWidth == 2.0 && context.style.font == BaseFont
      modifies context
      ensures context.log == old(context.log)
        + NodesCommands(nodes, |nodes|, cx, cy, maxRadius, pulseSine, old(context.style.textAlign))
      ensures context.style == StyleAfterNodes(old(context.style), nodes, |nodes|)
      ensures context.path == PathAfterNodes(old(context.path), nodes, |nodes|, cx, cy, maxRadius, pulseSine)
    {
      var n := |nodes|;
      ghost var align := context.style.textAlign;
      for index := 0 to n
        invariant context.log == old(context.log) + NodesCommands(nodes, index, cx, cy, maxRadius, pulseSine, align)
        invariant context.style == StyleAfterNodes(old(context.style), nodes, index)
        invariant context.path == PathAfterNodes(old(context.path), nodes, index, cx, cy, maxRadius, pulseSine)
      {
        DrawNode(nodes[index], index, n, cx, cy, maxRadius, pulseSine);
      }
    }

    /** The body of the `forEach` over the nodes, for node `index` of `n`. */
    method DrawNode(node: NodeJson, index: nat, n: nat, cx: real, cy: real, maxRadius: real, pulseSine: real)
      requires index < n && -1.0 <= pulseSine <= 1.0
      requires context.style.globalAlpha == 1.0 && context.style.lineWidth == 2.0 && context.style.font == BaseFont
      modifies context
      ensures context.log == old(context.log)
        + NodeCommands(node, index, n, cx, cy, maxRadius, pulseSine, old(context.style.textAlign))
      ensures var c := Colour(StatusColour(node.status));
        context.style == old(context.style).(fillStyle := c, strokeStyle := c)
      ensures context.path == [ArcOf(NodePos(node, index, n, cx, cy, maxRadius), NodeLastRadius(node, pulseSine), NoTurn, FullTurn)]
    {
      var angle := NodeAngle(index, n);
      var distance := NodeDistance(node, maxRadius);
      var at := Polar(cx, cy, distance, angle, 0.0, 0.0);
      var color := StatusColour(node.status);
      context.SetFillStyle(Colour(color));
      context.SetStrokeStyle(Colour(color));
      context.BeginPath();
      context.Arc(at, 4.0, NoTurn, FullTurn);
      ghost var disc := [ArcOf(at, 4.0, NoTurn, FullTurn)];
      assert context.path == disc;
      context.Fill();
      ghost var afterDisc := context.log;
      if node.status == Some("critical") {
        var pulseRadius := PulseRadius(pulseSine);
        context.SetGlobalAlpha(0.3);
        context.BeginPath();
        context.Arc(at, pulseRadius, NoTurn, FullTurn);
        assert context.path == [ArcOf(at, pulseRadius, NoTurn, FullTurn)];
        context.Stroke();
        context.SetGlobalAlpha(1.0);
      }
      ghost var afterPulse := context.log;
      context.SetFillStyle(Colour(color));
      context.FillText(NodeLabel(node, index), Polar(cx, cy, distance, angle, 8.0, 4.0));
      assert context.log == afterPulse + [context.log[|context.log| - 1]];
    }

    method DrawHealthIndicator(cx: real, cy: real, maxRadius: real)
      requires maxRadius >= 0.0
      requires context.style.font == BaseFont
      modifies context
      ensures context.log == old(context.log) + HealthCommands(cx, cy, maxRadius, systemHealth)
      ensures context.style == StyleAfterRadar(systemHealth)
      ensures context.path == HealthArcPath(cx, cy, maxRadius, systemHealth)
    {
      ghost var log0 := context.log;
      var healthRadius := maxRadius * 0.95;
      context.SetGlobalAlpha(0.2);
      context.SetStrokeStyle(Colour("#333333"));
      context.SetLineWidth(8.0);
      context.BeginPath();
      context.Arc(XY(cx, cy), healthRadius, NoTurn, FullTurn);
      assert context.path == [ArcOf(XY(cx, cy), HealthRadius(maxRadius), NoTurn, FullTurn)];
      context.Stroke();
      ghost var ring := context.log[|context.log| - 1];
      var healthColor := HealthColour(systemHealth);
      context.SetGlobalAlpha(0.8);
      context.SetStrokeStyle(Colour(healthColor));
      context.BeginPath();
      if systemHealth.Some? {
        context.Arc(XY(cx, cy), healthRadius, Turns(-0.25), HealthArcEnd(systemHealth.value));
      }
      assert context.path == HealthArcPath(cx, cy, maxRadius, systemHealth);
      context.Stroke();
      ghost var arc := context.log[|context.log| - 1];
      context.SetGlobalAlpha(1.0);
      context.SetFillStyle(Colour(healthColor));
      context.SetFont(HealthFont);
      context.SetTextAlign("center");
      context.FillText(HealthText(systemHealth), XY(cx, cy - 10.0));
      ghost var percent := context.log[|context.log| - 1];
      context.FillText("SYSTEM HEALTH", XY(cx, cy + 10.0));
      ghost var caption := context.log[|context.log| - 1];
      context.SetTextAlign("left");
      context.SetFont(BaseFont);
      AppendFour(log0, ring, arc, percent, caption);
      assert HealthCommands(cx, cy, maxRadius, systemHealth) == [ring, arc, percent, caption];
    }
  }
}

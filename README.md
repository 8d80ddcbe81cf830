# Tactical canvas hooks

This project models the two LiveView client hooks in `assets/js/app.js`.
`tacticalRadar` draws a square radar: four range rings, crosshairs, a sweep
line, one marker per node and a system-health arc. `networkTopology` draws a
line per connection and a dot per data-flow marker, on a canvas the size of its
wrapper. The model keeps the three things the hooks do:

- **Frame-slot lifecycle.** `mounted`, `updated` and `destroyed` work with a
  single `animationFrameRequest` handle. `Frames.FrameRegistry` stands in for
  `requestAnimationFrame`/`cancelAnimationFrame`: it hands out fresh non-zero
  handles and keeps the set of callbacks still due. Each hook class keeps the
  invariant that the only frame that can be due is the one its handle names.
- **Snapshot ingestion.** `JSON.parse` is an oracle that gives back one of
  three outcomes: a syntax error, a top-level `null`, or a record whose
  properties are all optional. A failure changes no field. A success replaces
  every field with JavaScript's `x || default`, where `0` and `""` count as
  missing.
- **Rendering.** `Canvas2D.Context2D` is a class holding a style record, the
  current path and a log of abstract draw commands. Each draw command carries
  the style attributes it is drawn with. The render methods append to that log
  step by step, as the source's loops do. Their contracts tie the log to a
  specification function (`TacticalRadar.RadarCommands`,
  `NetworkTopology.NetworkCommands`). The lemmas prove which shapes a frame
  emits, how many of each, where each one sits and in what order. A radar
  frame is `TacticalRadar.FrameAt` for a centre and outer radius, and
  `RadarCommands` is that frame at the bitmap's centre with `MaxRadius`. The
  frame lemmas hold for any centre and radius.

Numbers are exact `real`s. Angles passed to `cos`, `sin` and `arc` are kept
symbolic: a `Turns` value is a fraction of a full turn, and a `Polar` position
names a point by its centre, radius and angle. The pulse radius takes the value
of `Math.sin(Date.now() * 0.01)` as a parameter. Storing a size into
`canvas.width` applies the `unsigned long` conversion of Web IDL: truncate, then
reduce modulo 2^32. A result above 2^31 - 1 is out of range for a reflected
attribute, so the canvas stores its default instead: 300 for the width and 150
for the height.

Where the code's behaviour may be unexpected, the model follows it:

- `systemHealth: 0` is falsy and becomes 100. Once a snapshot has parsed, no
  frame draws a zero-length health arc.
- The end angle of the health arc is never clamped. The arc is drawn clockwise,
  so a health of 100 or more draws exactly the full ring. A negative health
  between -100 and 0 draws 1 + health/100 of the ring, clockwise from the top,
  and -100 draws the full ring again.
- `mounted` of the radar never sets `systemHealth`. If the first snapshot does
  not parse, the frame draws an empty health arc in green with the text "NaN%".
- Node defaults (`distance || 0.7`, `name || "N<i+1>"`) are applied when a node
  is drawn, not when the snapshot is ingested.
- `destroyed` sets no flag, so a later `updated` schedules and draws again.
- The topology hook reads only the standard backing-store ratio. The radar also
  tries the vendor-prefixed ones, so the two hooks can disagree on the same
  context (`NetworkTopology.PixelRatiosOfTheTwoHooks`).
- A data-flow marker with a negative size makes `arc` throw. That ends the frame,
  and no later marker is drawn.

Modules: `Wrappers` (Option), `Js` (`||`, `Math.round`, number text, `unsigned
long`), `Frames`, `Canvas2D`, `Snapshot`, `TacticalRadar`, `NetworkTopology` and
`HookLifecycle` (client call sequences over both hooks).

## Model

| member | source | states |
|---|---|---|
| Js.OrNumber | assets/js/app.js:59-61 | `x \|\| d` for a number: the default unless the value is present and non-zero; never 0 when the default is not 0 |
| Js.OrString | assets/js/app.js:223 | `s \|\| d` for a string: the value when present and non-empty, else the default; non-empty when the default is |
| Js.Min | assets/js/app.js:96 | `Math.min` of two numbers: a lower bound that is one of them |
| Js.Round | assets/js/app.js:258 | `Math.round`: the integer r with r - 0.5 <= x < r + 0.5 |
| Js.ToUnsignedLong | assets/js/app.js:97-98 | the Web IDL `unsigned long` conversion: below 2^32 and, in range, the number truncated |
| Js.NatToDecimal | assets/js/app.js:223 | the decimal text of `index + 1`: non-empty digits, no leading zero |
| Js.IntToDecimal | assets/js/app.js:258 | the text of a rounded percentage: a '-' exactly for negatives, digits otherwise |
| Js.DecimalRoundTrip | assets/js/app.js:223 | reading the decimal text of n back gives n |
| Js.DecimalInjective | assets/js/app.js:223 | distinct indices get distinct default labels |
| Frames.FrameRegistry.Request | assets/js/app.js:72-74 | `requestAnimationFrame` returns a handle never used before and makes it due |
| Frames.FrameRegistry.Cancel | assets/js/app.js:67-69 | `cancelAnimationFrame` removes exactly that handle from the due set |
| Frames.FrameRegistry.Dispatch | assets/js/app.js:72-74 | a callback runs exactly when its handle is due, and at most once |
| Canvas2D.DevicePixels | assets/js/app.js:97-98 | the bitmap size stored for a layout size times the ratio: the floor of the product in [0, 2^31); the attribute's default whenever the `unsigned long` value exceeds 2^31 - 1, which includes every product in (-2^31, -1] |
| Canvas2D.ClockwiseSweep | assets/js/app.js:250 | the part of the circle a clockwise `arc` covers: all of it once end - start reaches a turn, end - start when that lies in [0, 1), and one turn less the fractional part of start - end when the end lies before the start, never nothing in that case |
| Canvas2D.Context2D.SetGlobalAlpha | assets/js/app.js:351 | an opacity outside [0, 1] is ignored, and any other is taken |
| Canvas2D.Context2D.SetLineWidth | assets/js/app.js:115 | a non-positive width is ignored |
| Canvas2D.Context2D.Arc | assets/js/app.js:368 | `arc` adds an arc to the path; a negative radius is excluded, since `arc` throws on one |
| Canvas2D.Context2D.Stroke | assets/js/app.js:143 | `stroke` logs the current path with the current opacity, stroke style and line width |
| Canvas2D.Context2D.Fill | assets/js/app.js:209 | `fill` logs the current path with the current opacity and fill style |
| Canvas2D.Context2D.FillText | assets/js/app.js:223 | `fillText` logs the text with the opacity, fill style, font and alignment in force |
| Canvas2D.CountsAppend | assets/js/app.js:103-132 | strokes, fills and texts of two consecutive parts of a log add up |
| Snapshot.AttributeText | assets/js/app.js:58 | the text handed to `JSON.parse` is never empty, and is `{}` exactly for an absent, empty or `{}` attribute |
| Snapshot.IngestRadar | assets/js/app.js:57-64 | a failed or `null` parse keeps every radar field; a successful one always leaves a non-zero health |
| Snapshot.IngestTopology | assets/js/app.js:288-294 | a failed or `null` parse keeps both topology fields |
| Snapshot.TopologyFieldsDefaulted | assets/js/app.js:289-291 | a parsed snapshot sets connections and flows to the arrays when present, else to `[]` |
| Snapshot.RadarFieldsDefaulted | assets/js/app.js:59-61 | a parsed snapshot sets nodes, sweep and health to the value when truthy, else to `[]`, 0 and 100 |
| Snapshot.ZeroHealthReadsAsFull | assets/js/app.js:61 | `systemHealth: 0` is stored as 100 |
| Snapshot.FailedParseKeepsRadar | assets/js/app.js:62-64 | a syntax error or `null` snapshot changes no radar field |
| Snapshot.FailedParseKeepsTopology | assets/js/app.js:292-294 | a syntax error or `null` snapshot changes no topology field |
| Snapshot.LatestRadarParseWins | assets/js/app.js:58-61 | after a successful parse the radar fields do not depend on the earlier ones |
| Snapshot.LatestTopologyParseWins | assets/js/app.js:289-291 | after a successful parse the topology fields do not depend on the earlier ones |
| Snapshot.MissingRadarAttributeResets | assets/js/app.js:58-61 | an absent or empty attribute resets the radar to no nodes, sweep 0 and health 100 |
| Snapshot.MissingTopologyAttributeResets | assets/js/app.js:289-291 | an absent or empty attribute resets the topology to no connections and no flows |
| TacticalRadar.BackingStoreRatio | assets/js/app.js:85-90 | the first truthy backing-store ratio in the order tried, else 1; never 0 |
| TacticalRadar.GetPixelRatio | assets/js/app.js:84-93 | ratio × backing-store ratio = (devicePixelRatio \|\| 1); never 0 |
| TacticalRadar.PixelRatioWithoutBackingStore | assets/js/app.js:84-93 | with no backing-store ratio the pixel ratio is `devicePixelRatio \|\| 1`, and 1 without either |
| TacticalRadar.MaxRadius | assets/js/app.js:105-107 | 0.9 × the smaller half-dimension: non-negative, at most 0.45 of each side and equal to 0.45 of one |
| TacticalRadar.RadarGeometry | assets/js/app.js:105-139 | on a square bitmap maxRadius is 0.45 of the side; the 4th ring is maxRadius; rings are maxRadius/4 apart; the health ring lies inside |
| TacticalRadar.NodeAngle | assets/js/app.js:192 | node i of n sits at the fraction i/n of a turn, in [0, 1) |
| TacticalRadar.NodeAnglesEvenlySpaced | assets/js/app.js:192 | the first node is at angle 0, and neighbours are 1/n of a turn apart |
| TacticalRadar.PulseRadius | assets/js/app.js:213 | the pulse ring radius stays between 5 and 11 |
| TacticalRadar.StatusColourLookup | assets/js/app.js:198-201 | amber iff warning, red iff critical, grey iff offline, green iff none of these (missing included) |
| TacticalRadar.HealthColourTiers | assets/js/app.js:243-245 | green iff health >= 80 or undefined, amber iff 50 <= health < 80, red iff health < 50 |
| TacticalRadar.HealthArcExtent | assets/js/app.js:232-250 | the end angle handed to `arc` is health/100 of a turn past the top, unclamped: 0.75 turn at 100, beyond it above 100, before the start when negative |
| TacticalRadar.HealthArcSweep | assets/js/app.js:232-250 | the drawn arc covers the full ring for health >= 100, health/100 of it in [0, 100), 1 + health/100 of it in (-100, 0), the full ring at -100, and for any negative health one turn less the fractional part of -health/100; it is empty exactly at health 0 |
| TacticalRadar.HealthTextReadsBack | assets/js/app.js:258 | for every health the percentage text is a '-' exactly when the rounded health is negative, then digits, then '%'; the digits read back as the rounded health's magnitude |
| TacticalRadar.RingCommands | assets/js/app.js:138-144 | exactly four ring strokes |
| TacticalRadar.HealthCommands | assets/js/app.js:234-259 | the health display is four commands |
| TacticalRadar.DefaultNodeDrawing | assets/js/app.js:190-224 | a node without fields is a green disc at 0.7 maxRadius labelled "N" + (i+1), with no pulse ring |
| TacticalRadar.NodeCommandCounts | assets/js/app.js:203-223 | a node draws one disc and one label, and a pulse ring exactly when it is critical |
| TacticalRadar.NodesCommandCounts | assets/js/app.js:190-224 | k nodes draw k discs, k labels and one pulse ring per critical node |
| TacticalRadar.NodeDrawnInPlace | assets/js/app.js:190-224 | node i's disc sits at angle i/n, radius (distance \|\| 0.7)·maxRadius, in its status colour; its label follows it and its pulse ring |
| TacticalRadar.ChromeCounts | assets/js/app.js:134-185 | rings, crosshairs and sweep are six strokes; the health display is two strokes and two texts |
| TacticalRadar.RadarFrameCounts | assets/js/app.js:103-132 | a frame, around any centre and radius, has 8 + c strokes, n fills, n + 2 texts and 11 + 2n + c commands (n nodes, c of them critical) |
| TacticalRadar.RadarFrameOrder | assets/js/app.js:103-132 | clear first, then the rings at radius·k/4 from innermost to outermost, crosshairs, sweep, the nodes, and the health display last |
| TacticalRadar.EmptyRadarFrame | assets/js/app.js:190 | with no nodes a frame is the 11 fixed commands and fills nothing |
| TacticalRadar.CriticalNodeExample | assets/js/app.js:190-245 | one critical node "A" at 0.5 with health 42: a red disc at angle 0 and radius 0.5 maxRadius, a pulse ring, label "A", red health |
| TacticalRadar.RadarHook.Mounted | assets/js/app.js:29-51 | a canvas sized by the pixel ratio from the smaller client side, empty data, no frame pending, undefined health |
| TacticalRadar.RadarHook.ResizeCanvas | assets/js/app.js:95-101 | bitmap width and height are the smaller client side times the ratio, each capped to its default, so square while the product is in range; the CSS size is that side |
| TacticalRadar.RadarHook.Updated | assets/js/app.js:53-75 | fields become the ingest of the parse; the old frame is cancelled and exactly one fresh frame is due, even after a failed parse |
| TacticalRadar.RadarHook.Destroyed | assets/js/app.js:77-81 | no frame stays due, and the handle and data fields are unchanged |
| TacticalRadar.RadarHook.AnimationFrame | assets/js/app.js:72-74 | a refresh renders exactly when a frame is due, drawing the current fields, and afterwards none is due; after a render the context is left with the health colour, width 8, 12px font, left alignment and the health arc as its path |
| TacticalRadar.RadarHook.RenderRadar | assets/js/app.js:103-132 | appends exactly the frame's commands; leaves opacity 1, font 12px monospace and left alignment |
| TacticalRadar.RadarHook.DrawRadarRings | assets/js/app.js:134-146 | four ring strokes at maxRadius·i/4, opacity back to 1 |
| TacticalRadar.RadarHook.DrawCrosshairs | assets/js/app.js:148-161 | one stroke of the two diameters, opacity back to 1 |
| TacticalRadar.RadarHook.DrawRadarSweep | assets/js/app.js:163-185 | one gradient stroke from the centre to the sweep tip; stroke style and width reset |
| TacticalRadar.RadarHook.DrawNodes | assets/js/app.js:187-225 | appends every node's commands in order; the style carries the last node's colour |
| TacticalRadar.RadarHook.DrawNode | assets/js/app.js:190-224 | disc, pulse ring when critical, and label, in the node's status colour |
| TacticalRadar.RadarHook.DrawHealthIndicator | assets/js/app.js:227-262 | background ring, health arc, percentage and caption; font and alignment restored |
| NetworkTopology.TopologyPixelRatio | assets/js/app.js:311-314 | ratio × (backingStorePixelRatio \|\| 1) = (devicePixelRatio \|\| 1); never 0 |
| NetworkTopology.PixelRatiosOfTheTwoHooks | assets/js/app.js:311-314 | agrees with the radar's ratio on a standard backing store, and ignores a vendor-prefixed one |
| NetworkTopology.ConnectionCommands | assets/js/app.js:333-335 | one line per connection |
| NetworkTopology.FlowCommands | assets/js/app.js:338-340 | one dot per data-flow marker |
| NetworkTopology.DrawableFlows | assets/js/app.js:359-370 | the flows drawn are those before the first one whose size is negative |
| NetworkTopology.ConnectionAlphaCases | assets/js/app.js:351 | opacity 0.5 for a falsy strength, the strength when in (0, 1], else the previous 1; always valid |
| NetworkTopology.FlowDefaults | assets/js/app.js:364-366 | a marker without size or colour is a green dot of radius 2 |
| NetworkTopology.NormalisedCoordinates | assets/js/app.js:346-349 | (0,0), (1,1) and (0.5,0.5) map to the corners and the centre; x scales with width only, y with height only |
| NetworkTopology.NetworkFrameOrder | assets/js/app.js:324-341 | clear, then every connection in order, then every drawable flow in order |
| NetworkTopology.ConnectionsBeneathFlows | assets/js/app.js:332-340 | no stroke follows a fill: all lines are drawn before all dots |
| NetworkTopology.NetworkFrameCounts | assets/js/app.js:324-341 | a frame strokes one line per connection, fills one dot per drawable flow, and writes no text |
| NetworkTopology.NegativeSizeEndsFrame | assets/js/app.js:368 | a marker with a negative size hides itself and every marker after it |
| NetworkTopology.TopologyHook.Mounted | assets/js/app.js:267-283 | the canvas is sized by the pixel ratio per axis, with no data and no frame pending |
| NetworkTopology.TopologyHook.ResizeCanvas | assets/js/app.js:316-322 | bitmap width and height are `DevicePixels` of the wrapper's width and height times the ratio: truncated, and the default 300 or 150 once above 2^31 - 1; the CSS size is the wrapper's |
| NetworkTopology.TopologyHook.Updated | assets/js/app.js:285-303 | fields become the ingest of the parse; the old frame is cancelled and exactly one fresh frame is due |
| NetworkTopology.TopologyHook.Destroyed | assets/js/app.js:305-309 | no frame stays due, and the handle and data fields are unchanged |
| NetworkTopology.TopologyHook.AnimationFrame | assets/js/app.js:300-302 | a refresh renders exactly when a frame is due, and completes unless a marker makes `arc` throw; after a render the stroke is green, the width 1, the fill that of the last marker reached, and the path the last shape drawn |
| NetworkTopology.TopologyHook.RenderNetwork | assets/js/app.js:324-341 | appends exactly the frame's commands; stroke green, width 1, fill of the last marker reached |
| NetworkTopology.TopologyHook.DrawConnections | assets/js/app.js:333-335 | every connection's line, in order, style unchanged |
| NetworkTopology.TopologyHook.DrawDataFlows | assets/js/app.js:338-340 | the drawable markers' dots, in order; stops at the first one that throws |
| NetworkTopology.TopologyHook.DrawConnection | assets/js/app.js:343-357 | one line between the scaled endpoints at the connection's opacity, opacity back to 1 |
| NetworkTopology.TopologyHook.DrawDataFlow | assets/js/app.js:359-370 | a dot of radius `size \|\| 2` in `color \|\| green`, or nothing when the size is negative |
| HookLifecycle.RadarUpdatesCoalesce | assets/js/app.js:66-74 | two updates before a refresh give one frame drawing the latest state, and the next refresh draws nothing |
| HookLifecycle.RadarLaterFramesAlignLeft | assets/js/app.js:223-260 | the first frame draws node labels with the alignment in force, and the next frame with the "left" the health display left behind |
| HookLifecycle.RadarDestroyedDrawsNothing | assets/js/app.js:77-81 | after `destroyed` a refresh draws nothing |
| HookLifecycle.RadarUpdateAfterDestroyed | assets/js/app.js:53-81 | an update after `destroyed` schedules and draws again |
| HookLifecycle.TopologyUpdatesCoalesce | assets/js/app.js:296-302 | two updates before a refresh give one frame drawing the latest state, and the next refresh draws nothing |
| HookLifecycle.TopologyDestroyedDrawsNothing | assets/js/app.js:305-309 | after `destroyed` a refresh draws nothing |

## Left out

- Pixels, the CSS background (`assets/js/app.js:50`) and the gradient's colour stops are left out. Only the abstract draw commands are kept, and the sweep gradient is recorded by its end points.
- The values of `Math.cos`, `Math.sin` and `Math.PI` are left out. Angles stay symbolic, as fractions of a turn or as radians.
- The pulse radius does not read `Date.now()`. The sine is a parameter, and one value serves the whole frame. The source calls `Date.now()` once per critical node, so two critical nodes in one frame can get different pulse radii; the model draws them with the same one.
- The parser behind `JSON.parse` is an oracle. Snapshot entries of the wrong shape are not modelled: a connection with no `from`/`to`, or a non-number field. Such entries make the source throw or draw NaN.
- NaN and infinities are not modelled, because reals have neither. This covers a NaN strength or size, and `canvas.width` assigned NaN.
- An invalid CSS colour string is treated as a colour. The browser would ignore it.
- Numbers of 1e21 or more print in exponent notation in JavaScript. The model does not model that notation for the health percentage.
- The `console.warn` call on a failed parse is left out.
- The asynchrony of animation frames is left out. Each hook has its own registry, and a refresh runs the due callback directly.
- The reset of the context state when `canvas.width` is assigned is not modelled. Sizing happens only in `mounted`, before any drawing.
- The radar's `pulses` field (`assets/js/app.js:46`) is set and never read.
- `mounted` looks up the wrapper's `<canvas>` and its context. The model creates them fresh.
- The LiveSocket, CSRF, topbar and `window.liveSocket` setup (`assets/js/app.js:374-393`) is network and UI plumbing, so it is left out.
- `assets/tailwind.config.js` is not part of this model.
- TacticalRadar.BackingStoreRatio: its contract names the standard and webkit ratios and the all-absent default. The moz, ms and o steps of the same chain are only in its body.
- TacticalRadar.RadarHook.AnimationFrame: requires the pulse sine to lie in [-1, 1], the range of `Math.sin`.

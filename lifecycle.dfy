/** How a LiveView client drives the two hooks: bursts of `updated` calls
    between display refreshes, and `destroyed` when the element goes away. */
module HookLifecycle {
  import opened Wrappers
  import opened Snapshot
  import TacticalRadar
  import NetworkTopology

  /** Two radar updates before a refresh cost one frame, which draws the state
      after both; the next refresh draws nothing. */
  method RadarUpdatesCoalesce(hook: TacticalRadar.RadarHook, first: Option<string>, second: Option<string>,
                              parse: string -> Parsed<RadarJson>, pulseSine: real)
    returns (renderedFirst: bool, renderedSecond: bool)
    requires hook.Valid() && -1.0 <= pulseSine <= 1.0
    modifies hook, hook.frames, hook.context
    ensures hook.Valid()
    ensures renderedFirst && !renderedSecond
    ensures hook.State() == IngestRadar(IngestRadar(old(hook.State()), parse(AttributeText(first))), parse(AttributeText(second)))
    ensures hook.context.log == old(hook.context.log)
      + TacticalRadar.RadarCommands(hook.canvas.width, hook.canvas.height, hook.State(), pulseSine, old(hook.context.style.textAlign))
  {
    hook.Updated(first, parse);
    hook.Updated(second, parse);
    renderedFirst := hook.AnimationFrame(pulseSine);
    renderedSecond := hook.AnimationFrame(pulseSine);
  }

  /** Node labels take the alignment in force: the first frame after `mounted`
      draws them with the context's own, and every later frame with the "left"
      that the health display leaves behind. */
  method RadarLaterFramesAlignLeft(hook: TacticalRadar.RadarHook, first: Option<string>, second: Option<string>,
                                   parse: string -> Parsed<RadarJson>, pulseSine: real)
    requires hook.Valid() && -1.0 <= pulseSine <= 1.0
    modifies hook, hook.frames, hook.context
    ensures hook.Valid()
    ensures hook.context.log == old(hook.context.log)
      + TacticalRadar.RadarCommands(hook.canvas.width, hook.canvas.height,
                                    IngestRadar(old(hook.State()), parse(AttributeText(first))), pulseSine, old(hook.context.style.textAlign))
      + TacticalRadar.RadarCommands(hook.canvas.width, hook.canvas.height, hook.State(), pulseSine, "left")
  {
    hook.Updated(first, parse);
    var rendered := hook.AnimationFrame(pulseSine);
    hook.Updated(second, parse);
    rendered := hook.AnimationFrame(pulseSine);
  }

  /** After `destroyed`, a refresh runs no radar frame and leaves the canvas alone. */
  method RadarDestroyedDrawsNothing(hook: TacticalRadar.RadarHook, pulseSine: real) returns (rendered: bool)
    requires hook.Valid() && -1.0 <= pulseSine <= 1.0
    modifies hook.frames, hook.context
    ensures hook.Valid() && !rendered
    ensures hook.context.log == old(hook.context.log)
  {
    hook.Destroyed();
    rendered := hook.AnimationFrame(pulseSine);
  }

  /** `destroyed` sets no flag: an `updated` after it schedules and draws a frame again. */
  method RadarUpdateAfterDestroyed(hook: TacticalRadar.RadarHook, attr: Option<string>,
                                   parse: string -> Parsed<RadarJson>, pulseSine: real) returns (rendered: bool)
    requires hook.Valid() && -1.0 <= pulseSine <= 1.0
    modifies hook, hook.frames, hook.context
    ensures hook.Valid() && rendered
    ensures hook.context.log == old(hook.context.log)
      + TacticalRadar.RadarCommands(hook.canvas.width, hook.canvas.height, hook.State(), pulseSine, old(hook.context.style.textAlign))
  {
    hook.Destroyed();
    hook.Updated(attr, parse);
    rendered := hook.AnimationFrame(pulseSine);
  }

  /** Two topology updates before a refresh cost one frame, which draws the state
      after both; the next refresh draws nothing. */
  method TopologyUpdatesCoalesce(hook: NetworkTopology.TopologyHook, first: Option<string>, second: Option<string>,
                                 parse: string -> Parsed<TopologyJson>)
    returns (renderedFirst: bool, renderedSecond: bool)
    requires hook.Valid()
    modifies hook, hook.frames, hook.context
    ensures hook.Valid()
    ensures renderedFirst && !renderedSecond
    ensures hook.State() == IngestTopology(IngestTopology(old(hook.State()), parse(AttributeText(first))), parse(AttributeText(second)))
    ensures hook.context.log == old(hook.context.log) + NetworkTopology.NetworkCommands(hook.canvas.width, hook.canvas.height, hook.State())
  {
    hook.Updated(first, parse);
    hook.Updated(second, parse);
    var completed;
    renderedFirst, completed := hook.AnimationFrame();
    renderedSecond, completed := hook.AnimationFrame();
  }

  /** After `destroyed`, a refresh runs no topology frame and leaves the canvas alone. */
  method TopologyDestroyedDrawsNothing(hook: NetworkTopology.TopologyHook) returns (rendered: bool)
    requires hook.Valid()
    modifies hook.frames, hook.context
    ensures hook.Valid() && !rendered
    ensures hook.context.log == old(hook.context.log)
  {
    hook.Destroyed();
    var completed;
    rendered, completed := hook.AnimationFrame();
  }
}

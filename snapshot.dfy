/** Snapshot ingestion: the records `JSON.parse` yields for the two data
    attributes, and how a hook's `updated` folds a parse outcome into its fields
    (`x || default` on success, every field kept on failure). */
module Snapshot {
  import opened Wrappers
  import opened Js

  /** One radar node as sent by the server; every property may be absent.
      A property holding JSON `null` reads like an absent one (both are falsy). */
  datatype NodeJson = NodeJson(name: Option<string>, status: Option<string>, distance: Option<real>)

  datatype RadarJson = RadarJson(nodes: Option<seq<NodeJson>>, sweepAngle: Option<real>, systemHealth: Option<real>)

  datatype Point = Point(x: real, y: real)

  datatype ConnectionJson = ConnectionJson(from: Point, to: Point, strength: Option<real>)

  datatype FlowJson = FlowJson(x: real, y: real, size: Option<real>, color: Option<string>)

  datatype TopologyJson = TopologyJson(connections: Option<seq<ConnectionJson>>, dataFlow: Option<seq<FlowJson>>)

  /** The outcome of `JSON.parse`, standing in for the parser itself: the text is
      not JSON (it throws), the top-level value is `null` (reading a property of
      it throws), or a value whose properties are read. A top-level number,
      string, boolean or array has none of the fields and reads as an object
      without them. */
  datatype Parsed<T> = SyntaxError | Null | Value(value: T)

  /** What `JSON.parse('{}')` yields for each kind of snapshot. */
  const EmptyRadar := RadarJson(None, None, None)
  const EmptyTopology := TopologyJson(None, None)

  /** `this.el.dataset.radarData || '{}'` (and likewise for networkData): an absent or empty attribute reads as `{}`. */
  function AttributeText(attr: Option<string>): (text: string)
    ensures text != ""
    ensures text == "{}" <==> (attr == None || attr == Some("") || attr == Some("{}"))
  {
    OrString(attr, "{}")
  }

  /** The radar hook's data fields. `systemHealth` is `None` until the first
      successful parse: `mounted` never initialises it. */
  datatype RadarState = RadarState(nodes: seq<NodeJson>, sweepAngle: real, systemHealth: Option<real>)

  datatype TopologyState = TopologyState(connections: seq<ConnectionJson>, dataFlow: seq<FlowJson>)

  /** The fields `mounted` sets up. */
  const MountedRadar := RadarState([], 0.0, None)
  const MountedTopology := TopologyState([], [])

  /** The radar fields after the `try` block of `updated`. */
  function IngestRadar(prev: RadarState, parsed: Parsed<RadarJson>): (next: RadarState)
    ensures !parsed.Value? ==> next == prev
    ensures parsed.Value? ==> next.systemHealth.Some? && next.systemHealth.value != 0.0
  {
    match parsed
    case Value(data) =>
      RadarState(
        if data.nodes.Some? then data.nodes.value else [],
        OrNumber(data.sweepAngle, 0.0),
        Some(OrNumber(data.systemHealth, 100.0)))
    case _ => prev
  }

  /** The topology fields after the `try` block of `updated`. */
  function IngestTopology(prev: TopologyState, parsed: Parsed<TopologyJson>): (next: TopologyState)
    ensures !parsed.Value? ==> next == prev
  {
    match parsed
    case Value(data) =>
      TopologyState(
        if data.connections.Some? then data.connections.value else [],
        if data.dataFlow.Some? then data.dataFlow.value else [])
    case _ => prev
  }

  /** A successful parse replaces each field by `x || default`: a truthy value is
      kept, and an absent or falsy one (0 included) takes the default. */
  lemma RadarFieldsDefaulted(prev: RadarState, data: RadarJson)
    ensures var next := IngestRadar(prev, Value(data));
      && (data.nodes.None? ==> next.nodes == [])
      && (data.nodes.Some? ==> next.nodes == data.nodes.value)
      && (TruthyNumber(data.sweepAngle) ==> next.sweepAngle == data.sweepAngle.value)
      && (!TruthyNumber(data.sweepAngle) ==> next.sweepAngle == 0.0)
      && (TruthyNumber(data.systemHealth) ==> next.systemHealth == data.systemHealth)
      && (!TruthyNumber(data.systemHealth) ==> next.systemHealth == Some(100.0))
  {
  }

  /** A successful parse replaces both topology fields: a present array is kept
      (even an empty one, since arrays are truthy) and an absent one becomes `[]`. */
  lemma TopologyFieldsDefaulted(prev: TopologyState, data: TopologyJson)
    ensures var next := IngestTopology(prev, Value(data));
      && (data.connections.Some? ==> next.connections == data.connections.value)
      && (data.connections.None? ==> next.connections == [])
      && (data.dataFlow.Some? ==> next.dataFlow == data.dataFlow.value)
      && (data.dataFlow.None? ==> next.dataFlow == [])
  {
  }

  /** `systemHealth: 0` is falsy and becomes 100. */
  lemma ZeroHealthReadsAsFull(prev: RadarState, data: RadarJson)
    requires data.systemHealth == Some(0.0)
    ensures IngestRadar(prev, Value(data)).systemHealth == Some(100.0)
  {
  }

  /** Last-good-state policy: a failed parse, and a `null` snapshot, change no field. */
  lemma FailedParseKeepsRadar(prev: RadarState, parsed: Parsed<RadarJson>)
    requires parsed == SyntaxError || parsed == Null
    ensures IngestRadar(prev, parsed) == prev
  {
  }

  lemma FailedParseKeepsTopology(prev: TopologyState, parsed: Parsed<TopologyJson>)
    requires parsed == SyntaxError || parsed == Null
    ensures IngestTopology(prev, parsed) == prev
  {
  }

  /** A successful parse replaces the whole record: the result does not depend on the previous fields. */
  lemma LatestRadarParseWins(a: RadarState, b: RadarState, data: RadarJson)
    ensures IngestRadar(a, Value(data)) == IngestRadar(b, Value(data))
  {
  }

  lemma LatestTopologyParseWins(a: TopologyState, b: TopologyState, data: TopologyJson)
    ensures IngestTopology(a, Value(data)) == IngestTopology(b, Value(data))
  {
  }

  /** An absent or empty data attribute parses as `{}` and resets every radar field to its default. */
  lemma MissingRadarAttributeResets(prev: RadarState, attr: Option<string>, parse: string -> Parsed<RadarJson>)
    requires attr == None || attr == Some("")
    requires parse("{}") == Value(EmptyRadar)
    ensures IngestRadar(prev, parse(AttributeText(attr))) == RadarState([], 0.0, Some(100.0))
  {
  }

  lemma MissingTopologyAttributeResets(prev: TopologyState, attr: Option<string>, parse: string -> Parsed<TopologyJson>)
    requires attr == None || attr == Some("")
    requires parse("{}") == Value(EmptyTopology)
    ensures IngestTopology(prev, parse(AttributeText(attr))) == TopologyState([], [])
  {
  }
}

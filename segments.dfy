/** Segment helpers of packages/backend-lib/src/segments.ts: the broadcast
    test, node lookup by id, the name -> latest-value reduction of segment
    assignments, and the keyed segment evaluator `calculateKeyedSegment`
    with its per-event filter `filterEvent`. */
module Segments {
  import opened Wrappers
  import opened Json

  // ---------------------------------------------------------------------
  // Segment definitions
  // ---------------------------------------------------------------------

  /** The event name of the internal SegmentBroadcast event. */
  const SegmentBroadcastEvent: string := "DFSegmentBroadcast"

  datatype SegmentNodeKind =
    | Broadcast
    | Performed(event: string)
    | OtherNode(nodeType: string)

  datatype SegmentNode = SegmentNode(id: string, kind: SegmentNodeKind)

  datatype SegmentDefinition = SegmentDefinition(entryNode: SegmentNode, nodes: seq<SegmentNode>)

  /** `segmentNodeIsBroadcast`: a Broadcast node, or a Performed node on the
      SegmentBroadcast event. */
  predicate NodeIsBroadcast(node: SegmentNode)
  {
    node.kind.Broadcast? || (node.kind.Performed? && node.kind.event == SegmentBroadcastEvent)
  }

  /** `segmentHasBroadcast`: checks the entry node, then the nodes in order,
      returning at the first broadcast node. */
  method SegmentHasBroadcast(definition: SegmentDefinition) returns (r: bool)
    ensures r <==> NodeIsBroadcast(definition.entryNode)
                   || exists i :: 0 <= i < |definition.nodes| && NodeIsBroadcast(definition.nodes[i])
  {
    if NodeIsBroadcast(definition.entryNode) {
      return true;
    }
    var i := 0;
    while i < |definition.nodes|
      invariant 0 <= i <= |definition.nodes|
      invariant forall k :: 0 <= k < i ==> !NodeIsBroadcast(definition.nodes[k])
    {
      if NodeIsBroadcast(definition.nodes[i]) {
        return true;
      }
      i := i + 1;
    }
    return false;
  }

  /** `Array.prototype.find` on node ids: the first node carrying `id`. */
  function FindNode(nodes: seq<SegmentNode>, id: string): (r: Option<SegmentNode>)
    ensures r.None? <==> forall i :: 0 <= i < |nodes| ==> nodes[i].id != id
    ensures r.Some? ==> exists i :: 0 <= i < |nodes| && nodes[i] == r.value && r.value.id == id
                                    && forall j :: 0 <= j < i ==> nodes[j].id != id
  {
    if nodes == [] then None
    else if nodes[0].id == id then Some(nodes[0])
    else
      var r := FindNode(nodes[1..], id);
      assert r.Some? ==> exists i :: 1 <= i < |nodes| && nodes[i] == r.value && r.value.id == id
                                     && forall j :: 0 <= j < i ==> nodes[j].id != id by {
        if r.Some? {
          var i :| 0 <= i < |nodes[1..]| && nodes[1..][i] == r.value && r.value.id == id
                   && forall j :: 0 <= j < i ==> nodes[1..][j].id != id;
          assert nodes[i + 1] == r.value;
          forall j | 0 <= j < i + 1 ensures nodes[j].id != id {
            if j > 0 { assert nodes[j] == nodes[1..][j - 1]; }
          }
        }
      }
      assert r.None? ==> forall i :: 0 <= i < |nodes| ==> nodes[i].id != id by {
        if r.None? {
          forall i | 0 <= i < |nodes| ensures nodes[i].id != id {
            if i > 0 { assert nodes[i] == nodes[1..][i - 1]; }
          }
        }
      }
      r
  }

  /** `getSegmentNode`: the entry node when its id matches, otherwise the
      first node with that id, otherwise null. */
  function GetSegmentNode(definition: SegmentDefinition, id: string): (r: Option<SegmentNode>)
    ensures definition.entryNode.id == id ==> r == Some(definition.entryNode)
    ensures definition.entryNode.id != id && r.Some? ==>
              exists i :: 0 <= i < |definition.nodes| && definition.nodes[i] == r.value
                          && forall j :: 0 <= j < i ==> definition.nodes[j].id != id
    ensures definition.entryNode.id != id ==>
              (r.None? <==> forall i :: 0 <= i < |definition.nodes| ==> definition.nodes[i].id != id)
    ensures r.Some? ==> r.value.id == id
  {
    if definition.entryNode.id == id then Some(definition.entryNode)
    else FindNode(definition.nodes, id)
  }

  // ---------------------------------------------------------------------
  // findAllSegmentAssignments: name -> latest value
  // ---------------------------------------------------------------------

  /** A row of the argMax query: a segment id and its latest value. */
  datatype LatestSegmentRow = LatestSegmentRow(computedPropertyId: string, latestSegmentValue: bool)

  datatype SegmentRecord = SegmentRecord(id: string, name: string)

  /** The value `assignmentMap` holds for `id` once every row has been
      `set` in order: the last row for that id wins. */
  function LastRowValue(rows: seq<LatestSegmentRow>, id: string): (r: Option<bool>)
    ensures r.None? <==> forall i :: 0 <= i < |rows| ==> rows[i].computedPropertyId != id
    ensures r.Some? ==> exists i :: 0 <= i < |rows| && rows[i].computedPropertyId == id
                                    && rows[i].latestSegmentValue == r.value
                                    && forall j :: i < j < |rows| ==> rows[j].computedPropertyId != id
  {
    if rows == [] then None
    else if rows[|rows| - 1].computedPropertyId == id then Some(rows[|rows| - 1].latestSegmentValue)
    else
      var r := LastRowValue(rows[..|rows| - 1], id);
      assert forall i :: 0 <= i < |rows| - 1 ==> rows[..|rows| - 1][i] == rows[i];
      r
  }

  /** The `assignmentMap` loop of `findAllSegmentAssignments`: each row is
      `set` under its segment id in order. */
  method LatestValueMap(rows: seq<LatestSegmentRow>) returns (assignmentMap: map<string, bool>)
    ensures forall id :: id in assignmentMap <==> LastRowValue(rows, id).Some?
    ensures forall id :: id in assignmentMap ==> assignmentMap[id] == LastRowValue(rows, id).value
  {
    assignmentMap := map[];
    var k := 0;
    while k < |rows|
      invariant 0 <= k <= |rows|
      invariant forall id :: id in assignmentMap <==> LastRowValue(rows[..k], id).Some?
      invariant forall id :: id in assignmentMap ==> assignmentMap[id] == LastRowValue(rows[..k], id).value
    {
      assert rows[..k + 1][..k] == rows[..k];
      assignmentMap := assignmentMap[rows[k].computedPropertyId := rows[k].latestSegmentValue];
      k := k + 1;
    }
    assert rows[..k] == rows;
  }

  /** The reduction at the end of `findAllSegmentAssignments`: every
      segment of the workspace contributes its name, mapped to the latest
      value of its id (or null); a later segment with the same name
      overwrites an earlier one. */
  method SegmentAssignmentsByName(rows: seq<LatestSegmentRow>, segments: seq<SegmentRecord>)
    returns (byName: map<string, Option<bool>>)
    ensures forall name :: name in byName <==> exists i :: 0 <= i < |segments| && segments[i].name == name
    ensures forall name :: name in byName ==>
              exists i :: 0 <= i < |segments| && segments[i].name == name
                          && byName[name] == LastRowValue(rows, segments[i].id)
                          && forall j :: i < j < |segments| ==> segments[j].name != name
  {
    var assignmentMap := LatestValueMap(rows);
    byName := map[];
    ghost var lastIndex: map<string, nat> := map[];
    var i := 0;
    while i < |segments|
      invariant 0 <= i <= |segments|
      invariant byName.Keys == lastIndex.Keys
      invariant forall j :: 0 <= j < i ==> segments[j].name in byName
      invariant forall name :: name in lastIndex ==>
                  lastIndex[name] < i && segments[lastIndex[name]].name == name
                  && byName[name] == LastRowValue(rows, segments[lastIndex[name]].id)
                  && forall l :: lastIndex[name] < l < i ==> segments[l].name != name
    {
      var value := if segments[i].id in assignmentMap then Some(assignmentMap[segments[i].id]) else None;
      byName := byName[segments[i].name := value];
      lastIndex := lastIndex[segments[i].name := i];
      i := i + 1;
    }
  }

  // ---------------------------------------------------------------------
  // Keyed segment evaluation
  // ---------------------------------------------------------------------

  datatype RelationalOperator = GreaterThanOrEqual | LessThan | Equals

  datatype SegmentOperator =
    | OpEquals(value: JsonValue)
    | OpExists
    | OpLessThan(bound: int)
    | OpGreaterThanOrEqual(bound: int)
    | OpUnsupported(operatorType: string)

  datatype PropertyCondition = PropertyCondition(path: string, operator: SegmentOperator)

  /** A keyed Performed segment node: the event, the key path, the optional
      threshold and its operator, and the optional property conditions. */
  datatype KeyedPerformedSegmentNode = KeyedPerformedSegmentNode(
    id: string,
    event: string,
    key: string,
    times: Option<int>,
    timesOperator: Option<RelationalOperator>,
    properties: Option<seq<PropertyCondition>>)

  datatype TrackEvent = TrackEvent(event: string, messageId: string, properties: JsonValue)

  /** The jsonpath library's query: the list of values matching a path in
      the data, or None where the path cannot be normalised. */
  type PathQuery = (JsonValue, string) -> Option<seq<JsonValue>>

  /** The `jsonValue` helper as filterEvent sees it: None for an error,
      otherwise the value it yields. */
  type JsonValueLookup = (JsonValue, string) -> Option<JsonValue>

  /** `jsonValue` as written: it hands back the whole match list. */
  function JsonValueAsWritten(query: PathQuery): JsonValueLookup
  {
    (data: JsonValue, path: string) =>
      match query(data, path)
      case None => None
      case Some(matches) => Some(JArray(matches))
  }

  /** `jsonValue` as the filter evidently expects it: the first match, or
      undefined when nothing matches. */
  function JsonValueFirstMatch(query: PathQuery): JsonValueLookup
  {
    (data: JsonValue, path: string) =>
      match query(data, path)
      case None => None
      case Some(matches) => Some(if |matches| == 0 then JUndefined else matches[0])
  }

  /** The parameters filterEvent receives. */
  datatype FilterParams = FilterParams(
    event: string,
    properties: Option<seq<PropertyCondition>>,
    messageId: Option<string>,
    propertyPath: string,
    propertyValue: string)

  /** A property condition on the looked-up value (the negation of
      `mismatched`); an unsupported operator never holds. */
  predicate ConditionHolds(operator: SegmentOperator, value: JsonValue)
  {
    match operator
    case OpEquals(expected) => StrictEquals(value, expected)
    case OpExists => !(value.JNull? || value == JString("") || value.JUndefined?)
    case OpLessThan(bound) =>
      var n := ToNumber(value);
      n.Some? && n.value < bound
    case OpGreaterThanOrEqual(bound) =>
      var n := ToNumber(value);
      n.Some? && n.value >= bound
    case OpUnsupported(_) => false
  }

  /** The value a property condition is checked against:
      `jsonValue(...).unwrapOr(null)`. */
  function ConditionValue(jsonValue: JsonValueLookup, e: TrackEvent, path: string): JsonValue
  {
    jsonValue(e.properties, path).GetOr(JNull)
  }

  /** The key check: `jsonValue(...).map(v => v === propertyValue).unwrapOr(false)`. */
  predicate KeyMatches(jsonValue: JsonValueLookup, e: TrackEvent, path: string, value: string)
  {
    match jsonValue(e.properties, path)
    case None => false
    case Some(v) => StrictEquals(v, JString(value))
  }

  function Conditions(params: FilterParams): seq<PropertyCondition>
  {
    params.properties.GetOr([])
  }

  /** What filterEvent decides about one event. */
  predicate EventMatches(jsonValue: JsonValueLookup, params: FilterParams, e: TrackEvent)
  {
    && e.event == params.event
    && (params.messageId.Some? ==> e.messageId == params.messageId.value)
    && KeyMatches(jsonValue, e, params.propertyPath, params.propertyValue)
    && forall i :: 0 <= i < |Conditions(params)| ==>
         ConditionHolds(Conditions(params)[i].operator,
                        ConditionValue(jsonValue, e, Conditions(params)[i].path))
  }

  /** `filterEvent`: the event name, the message id (when given), the key
      path, then each property condition in order; the first failing check
      rejects the event. */
  method FilterEvent(jsonValue: JsonValueLookup, params: FilterParams, e: TrackEvent) returns (r: bool)
    ensures r == EventMatches(jsonValue, params, e)
  {
    if e.event != params.event {
      return false;
    }
    if params.messageId.Some? && e.messageId != params.messageId.value {
      return false;
    }
    if !KeyMatches(jsonValue, e, params.propertyPath, params.propertyValue) {
      return false;
    }
    var conditions := Conditions(params);
    var i := 0;
    while i < |conditions|
      invariant 0 <= i <= |conditions|
      invariant forall k :: 0 <= k < i ==>
                  ConditionHolds(conditions[k].operator, ConditionValue(jsonValue, e, conditions[k].path))
    {
      var value := ConditionValue(jsonValue, e, conditions[i].path);
      if !ConditionHolds(conditions[i].operator, value) {
        return false;
      }
      i := i + 1;
    }
    return true;
  }

  /** The parameters calculateKeyedSegment passes to filterEvent for a key value. */
  function KeyedFilterParams(definition: KeyedPerformedSegmentNode, keyValue: string): FilterParams
  {
    FilterParams(definition.event, definition.properties, None, definition.key, keyValue)
  }

  /** The number of events the filter accepts. */
  function CountMatching(jsonValue: JsonValueLookup, params: FilterParams, events: seq<TrackEvent>): (n: nat)
    ensures n <= |events|
  {
    if events == [] then 0
    else CountMatching(jsonValue, params, events[..|events| - 1])
         + (if EventMatches(jsonValue, params, events[|events| - 1]) then 1 else 0)
  }

  /** The threshold comparison of calculateKeyedSegment. */
  function TimesVerdict(count: nat, times: int, op: RelationalOperator): bool
  {
    match op
    case GreaterThanOrEqual => count >= times
    case LessThan => count < times
    case Equals => count == times
  }

  /** The keyed segment's value for a list of events and a key value:
      `times` defaults to 1 and the operator to `>=`. */
  function KeyedSegmentValue(jsonValue: JsonValueLookup, events: seq<TrackEvent>, keyValue: string,
                             definition: KeyedPerformedSegmentNode): bool
  {
    TimesVerdict(CountMatching(jsonValue, KeyedFilterParams(definition, keyValue), events),
                 definition.times.GetOr(1),
                 definition.timesOperator.GetOr(GreaterThanOrEqual))
  }

  /** `calculateKeyedSegment`: counts the events filterEvent accepts, then
      compares the count with the threshold. */
  method CalculateKeyedSegment(jsonValue: JsonValueLookup, events: seq<TrackEvent>, keyValue: string,
                               definition: KeyedPerformedSegmentNode) returns (result: bool)
    ensures result == KeyedSegmentValue(jsonValue, events, keyValue, definition)
  {
    var params := KeyedFilterParams(definition, keyValue);
    var eventsCount := 0;
    var i := 0;
    while i < |events|
      invariant 0 <= i <= |events|
      invariant eventsCount == CountMatching(jsonValue, params, events[..i])
    {
      assert events[..i + 1][..i] == events[..i];
      var matches := FilterEvent(jsonValue, params, events[i]);
      if matches {
        eventsCount := eventsCount + 1;
      }
      i := i + 1;
    }
    assert events[..i] == events;
    var times := definition.times.GetOr(1);
    var timesOperator := definition.timesOperator.GetOr(GreaterThanOrEqual);
    match timesOperator {
      case GreaterThanOrEqual => result := eventsCount >= times;
      case LessThan => result := eventsCount < times;
      case Equals => result := eventsCount == times;
    }
  }
}

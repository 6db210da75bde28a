/** The aodh alarm transformer: an aodh alarm event becomes an ALARM vertex
    attached, by `on` edges, to the graph vertices the event's query matched.
    An alarm that vitrage itself raised (it carries a vitrage id) is instead
    merged into the vertex that already exists. */
module AodhTransformer {
  import opened Wrappers
  import opened Constants
  import opened Strings
  import opened TransformerBase

  const StatusOk: string := "ok"
  /** `AlarmProperties.ALARM_ACTIVE_STATE`. */
  const AlarmActiveState: string := "Active"
  /** The entity type of a merged (vitrage-raised) alarm. */
  const VitrageType: string := "vitrage"

  /** `AodhProperties` names used as metadata keys, and the alarm types. */
  const DescriptionKey: string := "description"
  const EnabledKey: string := "enabled"
  const RepeatActionsKey: string := "repeat_actions"
  const AlarmTypeKey: string := "alarm_type"
  const EventTypeKey: string := "event_type"
  const StateTimestampKey: string := "state_timestamp"
  const EventAlarm: string := "event"
  const ThresholdAlarm: string := "threshold"

  /** What the transformer reads from an aodh event. Optional fields are the
      ones the source reads with `get` or that may hold None; `queryResult` is
      the graph query result, empty when the event has none. */
  datatype AodhEvent = AodhEvent(
    syncType: string,
    sampleDate: Timestamp,
    alarmId: Option<string>,
    name: string,
    severity: string,
    description: string,
    enabled: bool,
    projectId: string,
    repeatActions: bool,
    alarmType: string,
    eventType: string,
    stateTimestamp: Timestamp,
    state: string,
    resourceId: Option<string>,
    vitrageId: Option<string>,
    queryResult: seq<Vertex>)

  /** `_is_vitrage_alarm`: the event carries a vitrage id. */
  predicate IsVitrageAlarm(event: AodhEvent)
  {
    event.vitrageId.Some?
  }

  /** Python truthiness of the resource id: present and non-empty. */
  predicate HasResource(event: AodhEvent)
  {
    event.resourceId.Some? && event.resourceId.value != ""
  }

  /** `_create_entity_key`: the vitrage id of a vitrage-raised alarm, and
      otherwise an alarm key with the resource id (when there is one) and the
      name. For separator-free fields the key reads back as
      `[ALARM, sync_type, resource_id, name]` with a resource and as
      `[ALARM, sync_type, name]` without one. */
  function CreateEntityKey(event: AodhEvent): (key: string)
    ensures IsVitrageAlarm(event) ==> key == event.vitrageId.value
    ensures !IsVitrageAlarm(event) && HasResource(event)
            && KeySeparator !in event.syncType && KeySeparator !in event.name
            && KeySeparator !in event.resourceId.value ==>
              Split(key, KeySeparator) == [Alarm.Value(), event.syncType, event.resourceId.value, event.name]
    ensures !IsVitrageAlarm(event) && !HasResource(event)
            && KeySeparator !in event.syncType && KeySeparator !in event.name ==>
              Split(key, KeySeparator) == [Alarm.Value(), event.syncType, event.name]
  {
    if IsVitrageAlarm(event) then event.vitrageId.value
    else if HasResource(event) then
      var fields := AlarmKeyValues(event.syncType, [event.resourceId.value, event.name]);
      assert fields == [Alarm.Value(), event.syncType, event.resourceId.value, event.name];
      if !SeparatorFree(fields) then BuildKey(fields)
      else KeyRoundTrip(fields); BuildKey(fields)
    else
      var fields := AlarmKeyValues(event.syncType, [event.name]);
      assert fields == [Alarm.Value(), event.syncType, event.name];
      if !SeparatorFree(fields) then BuildKey(fields)
      else KeyRoundTrip(fields); BuildKey(fields)
  }

  /** Keys are not injective once a field holds the separator: an alarm `n`
      on resource `r` and an alarm named `r:n` with no resource get the same
      key. */
  lemma SeparatorInNameCollides(e: AodhEvent)
    requires !IsVitrageAlarm(e) && e.resourceId == Some("r") && e.name == "n"
    ensures CreateEntityKey(e) == CreateEntityKey(e.(resourceId := None, name := "r:n"))
  {
    var f := e.(resourceId := None, name := "r:n");
    var withResource := AlarmKeyValues(e.syncType, ["r", "n"]);
    var withoutResource := AlarmKeyValues(f.syncType, ["r:n"]);
    assert withResource == [Alarm.Value(), e.syncType, "r", "n"];
    assert withoutResource == [Alarm.Value(), e.syncType, "r:n"];
    assert Join(["n"], KeySeparator) == "n";
    assert Join(["r", "n"], KeySeparator) == "r:n";
    assert Join(["r:n"], KeySeparator) == "r:n";
    assert Join(withResource, KeySeparator) == Join(withoutResource, KeySeparator) by {
      assert withResource[2..] == ["r", "n"] && withResource[1..][1..] == withResource[2..];
      assert withoutResource[2..] == ["r:n"] && withoutResource[1..][1..] == withoutResource[2..];
    }
  }

  /** `_ok_status`: the alarm state is exactly 'ok'. */
  predicate OkStatus(event: AodhEvent)
  {
    event.state == StatusOk
  }

  /** `get_enrich_query`: None without a (non-empty) resource id, otherwise
      the query matching that id. */
  function GetEnrichQuery(event: AodhEvent): (q: Option<map<string, string>>)
    ensures q.None? <==> !HasResource(event)
    ensures q.Some? ==> q.value == map[VertexProperty.Id.Key() := event.resourceId.value]
  {
    if !HasResource(event) then None
    else Some(map[VertexProperty.Id.Key() := event.resourceId.value])
  }

  /** The metadata keys every plain alarm vertex carries. */
  const BaseMetadataKeys: set<string> :=
    {VertexProperty.Name.Key(), VertexProperty.Severity.Key(), DescriptionKey, EnabledKey,
     VertexProperty.ProjectId.Key(), RepeatActionsKey, AlarmTypeKey}

  /** The metadata of a plain alarm vertex. */
  function AlarmMetadata(event: AodhEvent): (m: map<string, Value>)
    ensures m.Keys == BaseMetadataKeys
                      + (if event.alarmType == EventAlarm then {EventTypeKey}
                         else if event.alarmType == ThresholdAlarm then {StateTimestampKey} else {})
    ensures m[VertexProperty.Name.Key()] == Str(event.name)
    ensures m[VertexProperty.Severity.Key()] == Str(event.severity)
    ensures m[DescriptionKey] == Str(event.description)
    ensures m[EnabledKey] == Flag(event.enabled)
    ensures m[VertexProperty.ProjectId.Key()] == Str(event.projectId)
    ensures m[RepeatActionsKey] == Flag(event.repeatActions)
    ensures m[AlarmTypeKey] == Str(event.alarmType)
    ensures EventTypeKey in m ==> m[EventTypeKey] == Str(event.eventType)
    ensures StateTimestampKey in m ==> m[StateTimestampKey] == Time(event.stateTimestamp)
  {
    var metadata := map[
      VertexProperty.Name.Key() := Str(event.name),
      VertexProperty.Severity.Key() := Str(event.severity),
      DescriptionKey := Str(event.description),
      EnabledKey := Flag(event.enabled),
      VertexProperty.ProjectId.Key() := Str(event.projectId),
      RepeatActionsKey := Flag(event.repeatActions),
      AlarmTypeKey := Str(event.alarmType)];
    if event.alarmType == EventAlarm then metadata[EventTypeKey := Str(event.eventType)]
    else if event.alarmType == ThresholdAlarm then metadata[StateTimestampKey := Time(event.stateTimestamp)]
    else metadata
  }

  /** `_create_vertex`: an active ALARM vertex of the event's sync type. */
  function CreateVertex(event: AodhEvent): (v: Vertex)
    ensures v.vertexId == CreateEntityKey(event)
    ensures v.entityId == event.alarmId
    ensures v.category == Some(Alarm) && v.vertexType == Some(event.syncType)
    ensures v.state == Some(AlarmActiveState)
    ensures v.sampleTimestamp == Some(event.sampleDate)
    ensures v.metadata == AlarmMetadata(event)
    ensures !v.isPlaceholder && !v.isDeleted
  {
    Vertex(CreateEntityKey(event), Some(Alarm), Some(event.syncType), event.alarmId,
           Some(AlarmActiveState), Some(event.sampleDate), None, false, false, AlarmMetadata(event))
  }

  /** `_create_merge_alarm_vertex`: a vertex of type 'vitrage' that only
      refreshes description and project id and leaves the state alone. */
  function CreateMergeAlarmVertex(event: AodhEvent): (v: Vertex)
    ensures v.vertexId == CreateEntityKey(event)
    ensures v.entityId == event.alarmId
    ensures v.category == Some(Alarm) && v.vertexType == Some(VitrageType)
    ensures v.state == None
    ensures v.sampleTimestamp == Some(event.sampleDate)
    ensures v.metadata.Keys == {DescriptionKey, VertexProperty.ProjectId.Key()}
    ensures v.metadata[DescriptionKey] == Str(event.description)
    ensures v.metadata[VertexProperty.ProjectId.Key()] == Str(event.projectId)
  {
    Vertex(CreateEntityKey(event), Some(Alarm), Some(VitrageType), event.alarmId, None,
           Some(event.sampleDate), None, false, false,
           map[DescriptionKey := Str(event.description),
               VertexProperty.ProjectId.Key() := Str(event.projectId)])
  }

  /** `_create_snapshot_entity_vertex`: a vitrage-raised alarm is merged into
      the vertex keyed by its vitrage id, with type 'vitrage', no state and
      only description and project id; any other alarm gets a fresh active
      vertex of its sync type with the full alarm metadata. */
  function CreateSnapshotEntityVertex(event: AodhEvent): (v: Vertex)
    ensures v.vertexId == CreateEntityKey(event) && v.entityId == event.alarmId
    ensures v.category == Some(Alarm) && v.sampleTimestamp == Some(event.sampleDate)
    ensures IsVitrageAlarm(event) ==>
              && v.vertexId == event.vitrageId.value
              && v.vertexType == Some(VitrageType) && v.state.None?
              && v.metadata.Keys == {DescriptionKey, VertexProperty.ProjectId.Key()}
    ensures !IsVitrageAlarm(event) ==>
              && v.vertexType == Some(event.syncType) && v.state == Some(AlarmActiveState)
              && v.metadata == AlarmMetadata(event)
  {
    if IsVitrageAlarm(event) then CreateMergeAlarmVertex(event) else CreateVertex(event)
  }

  /** `_create_update_entity_vertex`: the same vertex as for a snapshot. */
  function CreateUpdateEntityVertex(event: AodhEvent): (v: Vertex)
    ensures v == CreateSnapshotEntityVertex(event)
  {
    if IsVitrageAlarm(event) then CreateMergeAlarmVertex(event) else CreateVertex(event)
  }

  /** `_create_aodh_neighbors` (for snapshot and update events alike): one
      neighbour per queried vertex, in order, attached by an `on` edge from
      the alarm. */
  method CreateAodhNeighbors(event: AodhEvent) returns (result: seq<Neighbor>)
    ensures |result| == |event.queryResult|
    ensures forall i :: 0 <= i < |result| ==>
              result[i] == Neighbor(event.queryResult[i],
                                    Edge(CreateEntityKey(event), event.queryResult[i].vertexId, On))
    ensures forall n :: n in result ==> n.edge.sourceId == CreateEntityKey(event) && n.edge.relationship == On
  {
    var graphNeighbors := event.queryResult;
    result := [];
    var i := 0;
    while i < |graphNeighbors|
      invariant 0 <= i <= |graphNeighbors|
      invariant |result| == i
      invariant forall j :: 0 <= j < i ==>
                  result[j] == Neighbor(graphNeighbors[j], Edge(CreateEntityKey(event), graphNeighbors[j].vertexId, On))
    {
      var vertex := graphNeighbors[i];
      var edge := Edge(CreateEntityKey(event), vertex.vertexId, On);
      result := result + [Neighbor(vertex, edge)];
      i := i + 1;
    }
  }
}

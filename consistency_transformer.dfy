/** The consistency transformer: consistency events refer to vertices that
    already exist, by their vitrage id, so the transformer builds a bare vertex
    with no key and no neighbours. */
module ConsistencyTransformer {
  import opened Wrappers
  import opened Constants
  import opened TransformerBase

  /** `UPDATE_EVENT_TYPES`: the two deletion actions, each mapped to itself. */
  const UpdateEventTypes: map<string, EventAction> :=
    map[DeleteEntity.Value() := DeleteEntity, RemoveDeletedEntity.Value() := RemoveDeletedEntity]

  /** The action an update event type maps to, if it is a mapped one. */
  function UpdateEventAction(eventType: string): (a: Option<EventAction>)
    ensures a.Some? <==> eventType in {"delete_entity", "remove_deleted_entity"}
    ensures a.Some? ==> a.value.Value() == eventType
  {
    if eventType in UpdateEventTypes then Some(UpdateEventTypes[eventType]) else None
  }

  /** The fields of a consistency event the transformer reads. */
  datatype ConsistencyEvent = ConsistencyEvent(vitrageId: string, sampleDate: Timestamp)

  /** `_create_vertex`: the vertex with the event's vitrage id, carrying
      nothing but the sample timestamp. */
  function CreateVertex(event: ConsistencyEvent): (v: Vertex)
    ensures v.vertexId == event.vitrageId
    ensures v.sampleTimestamp == Some(event.sampleDate)
    ensures v.category.None? && v.vertexType.None? && v.entityId.None? && v.state.None?
    ensures v.updateTimestamp.None? && v.metadata == map[]
    ensures !v.isPlaceholder && !v.isDeleted
  {
    Vertex(event.vitrageId, None, None, None, None, Some(event.sampleDate), None, false, false, map[])
  }

  /** `_create_snapshot_entity_vertex`. */
  function CreateSnapshotEntityVertex(event: ConsistencyEvent): (v: Vertex)
    ensures v.vertexId == event.vitrageId && v.sampleTimestamp == Some(event.sampleDate)
    ensures v.category.None? && v.vertexType.None? && v.state.None? && v.metadata == map[]
  {
    CreateVertex(event)
  }

  /** `_create_update_entity_vertex`: the same vertex as for a snapshot. */
  function CreateUpdateEntityVertex(event: ConsistencyEvent): (v: Vertex)
    ensures v == CreateSnapshotEntityVertex(event)
  {
    CreateVertex(event)
  }

  /** `_create_entity_key`: consistency events have no key. */
  function CreateEntityKey(event: ConsistencyEvent): (key: Option<string>)
    ensures key.None?
  {
    None
  }

  /** `_create_snapshot_neighbors`: none. */
  function CreateSnapshotNeighbors(event: ConsistencyEvent): (ns: Option<seq<Neighbor>>)
    ensures ns.None?
  {
    None
  }

  /** `_create_update_neighbors`: none. */
  function CreateUpdateNeighbors(event: ConsistencyEvent): (ns: Option<seq<Neighbor>>)
    ensures ns.None?
  {
    None
  }
}

/** The neutron network transformer: a network event becomes a RESOURCE
    vertex of type neutron.network; update events produce no vertex. */
module NetworkTransformer {
  import opened Wrappers
  import opened Constants
  import opened Strings
  import opened TransformerBase

  const NeutronNetworkDatasource: string := "neutron.network"

  /** `UPDATE_EVENT_TYPES`: the update notifications given a special action. */
  const UpdateEventTypes: map<string, EventAction> := map["network.delete.end" := DeleteEntity]

  /** The action an update notification maps to, if it is a mapped one. */
  function UpdateEventAction(eventType: string): (a: Option<EventAction>)
    ensures a.Some? <==> eventType == "network.delete.end"
    ensures a.Some? ==> a.value == DeleteEntity && a.value.Value() == "delete_entity"
  {
    if eventType in UpdateEventTypes then Some(UpdateEventTypes[eventType]) else None
  }

  /** The fields of a network event the transformer reads. `networkId` is the
      `network_id` field of update notifications. */
  datatype NetworkEvent = NetworkEvent(syncMode: SyncMode, id: string, networkId: string,
                                       name: string, status: string, sampleDate: Timestamp)

  /** The id field the key is built from: `network_id` for update events,
      `id` otherwise. */
  function KeyId(event: NetworkEvent): (id: string)
    ensures IsUpdateEvent(event.syncMode) ==> id == event.networkId
    ensures !IsUpdateEvent(event.syncMode) ==> id == event.id
  {
    if IsUpdateEvent(event.syncMode) then event.networkId else event.id
  }

  /** `_create_entity_key`: the resource key of the key id. For a key id
      without the separator, it reads back as `[RESOURCE, neutron.network, id]`. */
  function CreateEntityKey(event: NetworkEvent): (key: string)
    ensures KeySeparator !in KeyId(event) ==>
              Split(key, KeySeparator) == [Resource.Value(), NeutronNetworkDatasource, KeyId(event)]
  {
    var fields := ResourceKeyValues(NeutronNetworkDatasource, [KeyId(event)]);
    assert fields == [Resource.Value(), NeutronNetworkDatasource, KeyId(event)];
    if KeySeparator in KeyId(event) then BuildKey(fields)
    else KeyRoundTrip(fields); BuildKey(fields)
  }

  /** Two events share a key exactly when their key ids agree: name and
      status never matter. */
  lemma NetworkKeyDependsOnlyOnId(a: NetworkEvent, b: NetworkEvent)
    requires KeySeparator !in KeyId(a) && KeySeparator !in KeyId(b)
    ensures CreateEntityKey(a) == CreateEntityKey(b) <==> KeyId(a) == KeyId(b)
  {
    if CreateEntityKey(a) == CreateEntityKey(b) {
      assert Split(CreateEntityKey(a), KeySeparator) == Split(CreateEntityKey(b), KeySeparator);
    }
  }

  /** `_create_vertex`: a RESOURCE vertex of type neutron.network, named
      `name`, stamped with the sample date. */
  function CreateVertex(event: NetworkEvent, name: string, entityId: string, state: string): (v: Vertex)
    ensures v.vertexId == CreateEntityKey(event)
    ensures v.entityId == Some(entityId) && v.state == Some(state)
    ensures v.category == Some(Resource) && v.vertexType == Some(NeutronNetworkDatasource)
    ensures v.sampleTimestamp == Some(event.sampleDate)
    ensures v.metadata == map[VertexProperty.Name.Key() := Str(name)]
    ensures !v.isPlaceholder && !v.isDeleted
  {
    Vertex(CreateEntityKey(event), Some(Resource), Some(NeutronNetworkDatasource), Some(entityId),
           Some(state), Some(event.sampleDate), None, false, false,
           map[VertexProperty.Name.Key() := Str(name)])
  }

  /** `_create_snapshot_entity_vertex`: name, id and status of the event
      become the vertex's name, entity id and state. */
  function CreateSnapshotEntityVertex(event: NetworkEvent): (v: Vertex)
    ensures v.vertexId == CreateEntityKey(event)
    ensures v.entityId == Some(event.id) && v.state == Some(event.status)
    ensures v.metadata == map[VertexProperty.Name.Key() := Str(event.name)]
    ensures v.category == Some(Resource) && v.vertexType == Some(NeutronNetworkDatasource)
    ensures v.sampleTimestamp == Some(event.sampleDate)
  {
    CreateVertex(event, event.name, event.id, event.status)
  }

  /** `_create_update_entity_vertex`: no vertex. */
  function CreateUpdateEntityVertex(event: NetworkEvent): (v: Option<Vertex>)
    ensures v.None?
  {
    None
  }

  /** A snapshot vertex's key names the network's own id. */
  lemma SnapshotKeyNamesNetwork(event: NetworkEvent)
    requires !IsUpdateEvent(event.syncMode) && KeySeparator !in event.id
    ensures Split(CreateSnapshotEntityVertex(event).vertexId, KeySeparator)
            == [Resource.Value(), NeutronNetworkDatasource, CreateSnapshotEntityVertex(event).entityId.value]
  {
  }
}

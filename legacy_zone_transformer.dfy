/** The synchronizer-era nova zone transformer. It reads every event field
    through a path chosen by the event's sync mode; paths exist only for the
    snapshot and init-snapshot modes, so an update event fails with a
    KeyError. Errors the source raises are `Failure` results here. */
module LegacyZoneTransformer {
  import opened Wrappers
  import opened Constants
  import opened Strings
  import opened TransformerBase

  /** `EntityType.NOVA_ZONE`. */
  const ZoneType: string := "nova.zone"
  const StateAvailable: string := "available"
  const StateUnavailable: string := "unavailable"

  /** The exceptions the transformer raises. */
  datatype LegacyError = KeyError(key: string) | ValueError(message: string)

  /** The field paths, per sync mode, of the zone name, the zone state, the
      sample date and the hosts, and (relative to one host) of its compute
      service's availability and activity. */
  const ZoneNamePath: map<SyncMode, seq<string>> := map[Snapshot := ["zoneName"], InitSnapshot := ["zoneName"]]
  const ZoneStatePath: map<SyncMode, seq<string>> :=
    map[Snapshot := ["zoneState", "available"], InitSnapshot := ["zoneState", "available"]]
  const TimestampPath: map<SyncMode, seq<string>> := map[Snapshot := ["sample_date"], InitSnapshot := ["sample_date"]]
  const HostsPath: map<SyncMode, seq<string>> := map[Snapshot := ["hosts"], InitSnapshot := ["hosts"]]
  const HostActivePath: map<SyncMode, seq<string>> :=
    map[Snapshot := ["nova-compute", "active"], InitSnapshot := ["nova-compute", "active"]]
  const HostAvailablePath: map<SyncMode, seq<string>> :=
    map[Snapshot := ["nova-compute", "available"], InitSnapshot := ["nova-compute", "available"]]

  /** Every path table covers the two snapshot modes and nothing else. */
  lemma PathTablesCoverSnapshotsOnly()
    ensures ZoneNamePath.Keys == ZoneStatePath.Keys == TimestampPath.Keys == HostsPath.Keys
            == HostActivePath.Keys == HostAvailablePath.Keys == {Snapshot, InitSnapshot}
  {
  }

  /** The `nova-compute` service flags of one host. */
  datatype HostData = HostData(available: bool, active: bool)

  /** A zone event: its sync mode and what the paths above lead to. */
  datatype LegacyZoneEvent = LegacyZoneEvent(syncMode: SyncMode, zoneName: string, zoneAvailable: bool,
                                             hosts: seq<(string, HostData)>, sampleDate: Timestamp)

  /** `key_values(fields)`: `[RESOURCE, nova.zone]` followed by the fields. */
  function KeyValues(fields: seq<string>): (kv: seq<string>)
    ensures |kv| == 2 + |fields|
    ensures kv[0] == Resource.Value() && kv[1] == ZoneType && kv[2..] == fields
  {
    [Resource.Value(), ZoneType] + fields
  }

  /** The nova host transformer's `key_values(fields)`. */
  function HostKeyValues(fields: seq<string>): seq<string>
  {
    ResourceKeyValues(NovaHostDatasource, fields)
  }

  /** `extract_key`: the key of the event's zone; a KeyError for a sync mode
      without paths. */
  function ExtractKey(event: LegacyZoneEvent): (r: Result<string, LegacyError>)
    ensures r.Failure? <==> event.syncMode == Update
    ensures r.Failure? ==> r.error == KeyError(event.syncMode.Value())
    ensures r.Success? ==> r.value == BuildKey(KeyValues([event.zoneName]))
  {
    if event.syncMode !in ZoneNamePath then Failure(KeyError(event.syncMode.Value()))
    else Success(BuildKey(KeyValues([event.zoneName])))
  }

  /** The zone key of a snapshot event reads back as `[RESOURCE, nova.zone, zoneName]`. */
  lemma ExtractKeyFields(event: LegacyZoneEvent)
    requires event.syncMode != Update && KeySeparator !in event.zoneName
    ensures Split(ExtractKey(event).value, KeySeparator) == [Resource.Value(), ZoneType, event.zoneName]
  {
    var fields := KeyValues([event.zoneName]);
    assert fields == [Resource.Value(), ZoneType, event.zoneName];
    KeyRoundTrip(fields);
  }

  /** `_create_entity_vertex`: the zone vertex, stamped with the sample date
      as its update timestamp. */
  function CreateEntityVertex(event: LegacyZoneEvent): (r: Result<Vertex, LegacyError>)
    ensures r.Failure? <==> event.syncMode == Update
    ensures r.Failure? ==> r.error == KeyError(event.syncMode.Value())
    ensures r.Success? ==>
              && r.value.vertexId == ExtractKey(event).value
              && r.value.entityId == Some(event.zoneName)
              && r.value.category == Some(Resource) && r.value.vertexType == Some(ZoneType)
              && (r.value.state == Some(StateAvailable) <==> event.zoneAvailable)
              && (r.value.state == Some(StateUnavailable) <==> !event.zoneAvailable)
              && r.value.updateTimestamp == Some(event.sampleDate) && r.value.sampleTimestamp.None?
              && r.value.metadata == map[VertexProperty.Name.Key() := Str(event.zoneName)]
              && !r.value.isPlaceholder
  {
    if event.syncMode !in ZoneNamePath then Failure(KeyError(event.syncMode.Value()))
    else
      var state := if event.zoneAvailable then StateAvailable else StateUnavailable;
      Success(Vertex(ExtractKey(event).value, Some(Resource), Some(ZoneType), Some(event.zoneName),
                     Some(state), None, Some(event.sampleDate), false, false,
                     map[VertexProperty.Name.Key() := Str(event.zoneName)]))
  }

  /** `_create_node_neighbor`: the node placeholder (built by the synchronizer
      base, given here), containing the zone. */
  function CreateNodeNeighbor(zoneVertexId: string, node: Vertex): (n: Neighbor)
    ensures n.vertex == node
    ensures n.edge == Edge(node.vertexId, zoneVertexId, Contains)
  {
    Neighbor(node, Edge(node.vertexId, zoneVertexId, Contains))
  }

  /** `_create_host_neighbor`: a host vertex keyed by the host transformer,
      but typed with the zone type as written, contained in the zone. */
  function CreateHostNeighbor(zoneId: string, hostName: string, hostState: string,
                              timestamp: Timestamp): (n: Neighbor)
    ensures n.vertex.vertexId == BuildKey(HostKeyValues([hostName]))
    ensures n.vertex.entityId == Some(hostName) && n.vertex.state == Some(hostState)
    ensures n.vertex.category == Some(Resource) && n.vertex.vertexType == Some(ZoneType)
    ensures n.vertex.updateTimestamp == Some(timestamp) && !n.vertex.isPlaceholder
    ensures n.edge == Edge(zoneId, n.vertex.vertexId, Contains)
  {
    var vitrageId := BuildKey(HostKeyValues([hostName]));
    var hostVertex := Vertex(vitrageId, Some(Resource), Some(ZoneType), Some(hostName), Some(hostState),
                             None, Some(timestamp), false, false, map[]);
    Neighbor(hostVertex, Edge(zoneId, hostVertex.vertexId, Contains))
  }

  /** The host neighbour of the `i`-th host of a snapshot event. */
  function HostNeighborAt(event: LegacyZoneEvent, i: nat): Neighbor
    requires event.syncMode != Update && i < |event.hosts|
  {
    var (hostName, hostData) := event.hosts[i];
    var hostState := if hostData.available && hostData.active then StateAvailable else StateUnavailable;
    CreateHostNeighbor(ExtractKey(event).value, hostName, hostState, event.sampleDate)
  }

  /** `_create_neighbors`: the node neighbour, then one neighbour per host when
      a host transformer is registered; an update event is a KeyError. */
  method CreateNeighbors(event: LegacyZoneEvent, node: Vertex, hostTransformerRegistered: bool)
    returns (r: Result<seq<Neighbor>, LegacyError>)
    ensures r.Failure? <==> event.syncMode == Update
    ensures r.Failure? ==> r.error == KeyError(event.syncMode.Value())
    ensures r.Success? ==>
              && |r.value| == (if hostTransformerRegistered then 1 + |event.hosts| else 1)
              && r.value[0] == CreateNodeNeighbor(ExtractKey(event).value, node)
              && (hostTransformerRegistered ==>
                    forall i :: 0 <= i < |event.hosts| ==> r.value[i + 1] == HostNeighborAt(event, i))
  {
    var key := ExtractKey(event);
    if key.Failure? {
      return Failure(key.error);
    }
    var zoneVertexId := key.value;
    var neighbors := [CreateNodeNeighbor(zoneVertexId, node)];
    if hostTransformerRegistered {
      var timestamp := event.sampleDate;
      var i := 0;
      while i < |event.hosts|
        invariant 0 <= i <= |event.hosts|
        invariant |neighbors| == 1 + i
        invariant neighbors[0] == CreateNodeNeighbor(zoneVertexId, node)
        invariant forall j :: 0 <= j < i ==> neighbors[j + 1] == HostNeighborAt(event, j)
      {
        var (hostName, hostData) := event.hosts[i];
        var hostState: string;
        if hostData.available && hostData.active {
          hostState := StateAvailable;
        } else {
          hostState := StateUnavailable;
        }
        neighbors := neighbors + [CreateHostNeighbor(zoneVertexId, hostName, hostState, timestamp)];
        i := i + 1;
      }
    }
    r := Success(neighbors);
  }

  /** `create_placeholder_vertex(properties)`: a ValueError without an id, a
      KeyError without an update timestamp, otherwise a zone placeholder. */
  function CreatePlaceholderVertex(properties: map<string, string>): (r: Result<Vertex, LegacyError>)
    ensures r.Failure? <==>
              (VertexProperty.Id.Key() !in properties || VertexProperty.UpdateTimestamp.Key() !in properties)
    ensures VertexProperty.Id.Key() !in properties ==> r == Failure(ValueError("Missing property ID"))
    ensures VertexProperty.Id.Key() in properties && VertexProperty.UpdateTimestamp.Key() !in properties ==>
              r == Failure(KeyError(VertexProperty.UpdateTimestamp.Key()))
    ensures r.Success? ==>
              && r.value.vertexId == BuildKey(KeyValues([properties[VertexProperty.Id.Key()]]))
              && r.value.entityId == Some(properties[VertexProperty.Id.Key()])
              && r.value.category == Some(Resource) && r.value.vertexType == Some(ZoneType)
              && r.value.updateTimestamp == Some(properties[VertexProperty.UpdateTimestamp.Key()])
              && r.value.isPlaceholder
  {
    if VertexProperty.Id.Key() !in properties then Failure(ValueError("Missing property ID"))
    else
      var id := properties[VertexProperty.Id.Key()];
      var key := BuildKey(KeyValues([id]));
      if VertexProperty.UpdateTimestamp.Key() !in properties then
        Failure(KeyError(VertexProperty.UpdateTimestamp.Key()))
      else
        Success(Vertex(key, Some(Resource), Some(ZoneType), Some(id), None, None,
                       Some(properties[VertexProperty.UpdateTimestamp.Key()]), true, false, map[]))
  }

  /** A zone placeholder and the zone vertex of a snapshot event share their key
      exactly when the placeholder's id is the zone name. */
  lemma PlaceholderMatchesZoneVertex(event: LegacyZoneEvent, id: string, timestamp: Timestamp)
    requires event.syncMode != Update
    requires KeySeparator !in event.zoneName && KeySeparator !in id
    ensures var p := CreatePlaceholderVertex(map[VertexProperty.Id.Key() := id,
                                                 VertexProperty.UpdateTimestamp.Key() := timestamp]);
            p.Success? && (p.value.vertexId == CreateEntityVertex(event).value.vertexId <==> id == event.zoneName)
  {
    var a := KeyValues([id]);
    var b := KeyValues([event.zoneName]);
    assert a == [Resource.Value(), ZoneType, id];
    assert b == [Resource.Value(), ZoneType, event.zoneName];
    if BuildKey(a) == BuildKey(b) {
      KeyInjective(a, b);
    }
  }
}

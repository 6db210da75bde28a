/** The nova zone transformer: turns a zone event into the zone vertex and its
    neighbours, namely the cluster placeholder above it and, when a host
    transformer is registered, one host vertex per host of the zone. */
module NovaZoneTransformer {
  import opened Wrappers
  import opened Constants
  import opened Strings
  import opened TransformerBase

  const NovaZoneDatasource: string := "nova.zone"
  const StateAvailable: string := "available"
  const StateUnavailable: string := "unavailable"

  /** The `nova-compute` service flags of one host. */
  datatype HostData = HostData(available: bool, active: bool)

  /** The fields of a zone event the transformer reads: `zoneName`,
      `zoneState.available`, the `hosts` dictionary in iteration order, and
      the sample date. */
  datatype ZoneEvent = ZoneEvent(zoneName: string, zoneAvailable: bool,
                                 hosts: seq<(string, HostData)>, sampleDate: Timestamp)

  /** `_create_entity_key`: `build_key(_key_values('nova.zone', zoneName))`.
      For a zone name without the separator, the key reads back as
      `[RESOURCE, nova.zone, zoneName]`. */
  function CreateEntityKey(event: ZoneEvent): (key: string)
    ensures KeySeparator !in event.zoneName ==>
              Split(key, KeySeparator) == [Resource.Value(), NovaZoneDatasource, event.zoneName]
  {
    var fields := ResourceKeyValues(NovaZoneDatasource, [event.zoneName]);
    assert fields == [Resource.Value(), NovaZoneDatasource, event.zoneName];
    if KeySeparator in event.zoneName then BuildKey(fields)
    else KeyRoundTrip(fields); BuildKey(fields)
  }

  /** Two zone events share a key exactly when they name the same zone; hosts,
      state and sample date play no part. */
  lemma ZoneKeyDependsOnlyOnName(a: ZoneEvent, b: ZoneEvent)
    requires KeySeparator !in a.zoneName && KeySeparator !in b.zoneName
    ensures CreateEntityKey(a) == CreateEntityKey(b) <==> a.zoneName == b.zoneName
  {
    if CreateEntityKey(a) == CreateEntityKey(b) {
      assert Split(CreateEntityKey(a), KeySeparator) == Split(CreateEntityKey(b), KeySeparator);
    }
  }

  /** The zone state: available exactly when `zoneState.available` holds. */
  function ZoneState(isAvailable: bool): (state: string)
    ensures state in {StateAvailable, StateUnavailable}
    ensures state == StateAvailable <==> isAvailable
  {
    if isAvailable then StateAvailable else StateUnavailable
  }

  /** `_create_vertex`: a RESOURCE vertex of type nova.zone keyed by the zone
      name, named after it, stamped with the event's sample date. */
  function CreateVertex(event: ZoneEvent, state: string, zoneName: string): (v: Vertex)
    ensures v.vertexId == CreateEntityKey(event)
    ensures v.entityId == Some(zoneName) && v.state == Some(state)
    ensures v.category == Some(Resource) && v.vertexType == Some(NovaZoneDatasource)
    ensures v.sampleTimestamp == Some(event.sampleDate)
    ensures v.metadata == map[VertexProperty.Name.Key() := Str(zoneName)]
    ensures !v.isPlaceholder && !v.isDeleted
  {
    Vertex(CreateEntityKey(event), Some(Resource), Some(NovaZoneDatasource), Some(zoneName),
           Some(state), Some(event.sampleDate), None, false, false,
           map[VertexProperty.Name.Key() := Str(zoneName)])
  }

  /** `_create_snapshot_entity_vertex`. */
  function CreateSnapshotEntityVertex(event: ZoneEvent): (v: Vertex)
    ensures v.vertexId == CreateEntityKey(event)
    ensures v.entityId == Some(event.zoneName)
    ensures v.metadata == map[VertexProperty.Name.Key() := Str(event.zoneName)]
    ensures v.state == Some(StateAvailable) <==> event.zoneAvailable
    ensures v.state == Some(StateUnavailable) <==> !event.zoneAvailable
    ensures v.category == Some(Resource) && v.vertexType == Some(NovaZoneDatasource)
    ensures v.sampleTimestamp == Some(event.sampleDate)
  {
    CreateVertex(event, ZoneState(event.zoneAvailable), event.zoneName)
  }

  /** `_create_update_entity_vertex`: zone updates are not supported, and no
      vertex is produced. */
  function CreateUpdateEntityVertex(event: ZoneEvent): (v: Option<Vertex>)
    ensures v.None?
  {
    None
  }

  /** `_create_cluster_neighbor`: the cluster placeholder, containing the zone. */
  function CreateClusterNeighbor(zoneVertexId: string): (n: Neighbor)
    ensures n.vertex == ClusterPlaceholderVertex()
    ensures n.edge == Edge(ClusterPlaceholderVertex().vertexId, zoneVertexId, Contains)
  {
    var cluster := ClusterPlaceholderVertex();
    Neighbor(cluster, Edge(cluster.vertexId, zoneVertexId, Contains))
  }

  /** A host is available exactly when its compute service is both available
      and active. */
  function HostState(hostAvailable: bool, hostActive: bool): (state: string)
    ensures state in {StateAvailable, StateUnavailable}
    ensures state == StateAvailable <==> hostAvailable && hostActive
  {
    if hostAvailable && hostActive then StateAvailable else StateUnavailable
  }

  /** `_create_host_neighbor`: the host transformer's placeholder, with its
      state set and no longer flagged as a placeholder, contained in the zone. */
  function CreateHostNeighbor(zoneId: string, hostName: string, hostState: string,
                              sampleTimestamp: Timestamp): (n: Neighbor)
    ensures var placeholder := CreatePlaceholderVertex(NovaHostDatasource, hostName, sampleTimestamp);
            && n.vertex.vertexId == placeholder.vertexId
            && n.vertex == placeholder.(state := Some(hostState), isPlaceholder := false)
    ensures n.vertex.vertexType == Some(NovaHostDatasource) && n.vertex.entityId == Some(hostName)
    ensures n.vertex.state == Some(hostState) && !n.vertex.isPlaceholder
    ensures n.vertex.sampleTimestamp == Some(sampleTimestamp)
    ensures n.edge == Edge(zoneId, n.vertex.vertexId, Contains)
  {
    var hostNeighbor := CreatePlaceholderVertex(NovaHostDatasource, hostName, sampleTimestamp);
    var hostNeighbor := hostNeighbor.(state := Some(hostState));
    var hostNeighbor := hostNeighbor.(isPlaceholder := false);
    Neighbor(hostNeighbor, Edge(zoneId, hostNeighbor.vertexId, Contains))
  }

  /** The host neighbour of the `i`-th entry of `hosts`. */
  function HostNeighborAt(event: ZoneEvent, i: nat): Neighbor
    requires i < |event.hosts|
  {
    var (hostName, hostData) := event.hosts[i];
    CreateHostNeighbor(CreateEntityKey(event), hostName, HostState(hostData.available, hostData.active),
                       event.sampleDate)
  }

  /** `_create_nova_zone_neighbors` (for snapshot and update events alike):
      the cluster neighbour first, then, when a host transformer is
      registered, one neighbour per host in order. */
  method CreateNovaZoneNeighbors(event: ZoneEvent, hostTransformerRegistered: bool)
    returns (neighbors: seq<Neighbor>)
    ensures |neighbors| == if hostTransformerRegistered then 1 + |event.hosts| else 1
    ensures neighbors[0] == CreateClusterNeighbor(CreateEntityKey(event))
    ensures hostTransformerRegistered ==>
              forall i :: 0 <= i < |event.hosts| ==> neighbors[i + 1] == HostNeighborAt(event, i)
  {
    var zoneVertexId := CreateEntityKey(event);
    neighbors := [CreateClusterNeighbor(zoneVertexId)];
    if hostTransformerRegistered {
      var i := 0;
      while i < |event.hosts|
        invariant 0 <= i <= |event.hosts|
        invariant |neighbors| == 1 + i
        invariant neighbors[0] == CreateClusterNeighbor(zoneVertexId)
        invariant forall j :: 0 <= j < i ==> neighbors[j + 1] == HostNeighborAt(event, j)
      {
        var (hostName, hostData) := event.hosts[i];
        var hostState := if hostData.available && hostData.active then StateAvailable else StateUnavailable;
        var hostNeighbor := CreateHostNeighbor(zoneVertexId, hostName, hostState, event.sampleDate);
        neighbors := neighbors + [hostNeighbor];
        i := i + 1;
      }
    }
  }

  /** Every zone edge is a `contains` edge reaching the zone from the cluster
      or the host from the zone, and no host vertex is the cluster vertex. */
  lemma ZoneNeighborsShape(event: ZoneEvent, i: nat)
    requires i < |event.hosts|
    requires KeySeparator !in event.hosts[i].0
    ensures HostNeighborAt(event, i).edge.sourceId == CreateEntityKey(event)
    ensures HostNeighborAt(event, i).edge.relationship == Contains
    ensures CreateClusterNeighbor(CreateEntityKey(event)).edge.targetId == CreateEntityKey(event)
    ensures HostNeighborAt(event, i).vertex.vertexId != ClusterPlaceholderVertex().vertexId
  {
    var hostName := event.hosts[i].0;
    var hostFields := ResourceKeyValues(NovaHostDatasource, [hostName]);
    var clusterFields := [Resource.Value(), OpenstackCluster];
    assert hostFields == [Resource.Value(), NovaHostDatasource, hostName];
    if BuildKey(hostFields) == BuildKey(clusterFields) {
      KeyInjective(hostFields, clusterFields);
    }
  }
}

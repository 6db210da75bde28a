/** What every datasource transformer shares: graph vertices and edges as
    records, and the key helpers.

    The helpers `build_key`, `_key_values` and the placeholder constructors of
    the transformer base classes are not part of this model's sources; their
    behaviour here is the one the unit tests pin down: a key is the
    `':'`-joined list `[CATEGORY, type, id...]`. */
module TransformerBase {
  import opened Wrappers
  import opened Strings
  import opened Constants

  /** Timestamps are opaque values copied from events. */
  type Timestamp = string

  /** `TransformerBase.KEY_SEPARATOR`. */
  const KeySeparator: char := ':'

  const NovaHostDatasource: string := "nova.host"
  const OpenstackCluster: string := "openstack.cluster"

  /** A value stored under a datasource-specific metadata key. */
  datatype Value = Str(s: string) | Flag(b: bool) | Time(t: Timestamp)

  /** A graph vertex as `graph_utils.create_vertex` builds it: properties whose
      argument was None are absent (None here); every vertex starts neither
      deleted nor, unless asked, a placeholder. */
  datatype Vertex = Vertex(
    vertexId: string,
    category: Option<EntityCategory>,
    vertexType: Option<string>,
    entityId: Option<string>,
    state: Option<string>,
    sampleTimestamp: Option<Timestamp>,
    updateTimestamp: Option<Timestamp>,
    isPlaceholder: bool,
    isDeleted: bool,
    metadata: map<string, Value>)

  /** A directed, labelled edge between two vertex keys. */
  datatype Edge = Edge(sourceId: string, targetId: string, relationship: EdgeLabel)

  /** `transformer_base.Neighbor`: a vertex to link to and the linking edge. */
  datatype Neighbor = Neighbor(vertex: Vertex, edge: Edge)

  /** True when no key field contains the separator. */
  predicate SeparatorFree(fields: seq<string>)
  {
    forall i :: 0 <= i < |fields| ==> KeySeparator !in fields[i]
  }

  /** `build_key`: the key fields joined by the separator. */
  function BuildKey(fields: seq<string>): string
  {
    Join(fields, KeySeparator)
  }

  /** A key splits back into the fields it was built from. */
  lemma KeyRoundTrip(fields: seq<string>)
    requires |fields| >= 1 && SeparatorFree(fields)
    ensures Split(BuildKey(fields), KeySeparator) == fields
  {
    SplitJoin(fields, KeySeparator);
  }

  /** Different separator-free field lists never share a key. */
  lemma KeyInjective(a: seq<string>, b: seq<string>)
    requires |a| >= 1 && |b| >= 1 && SeparatorFree(a) && SeparatorFree(b)
    requires BuildKey(a) == BuildKey(b)
    ensures a == b
  {
    JoinInjective(a, b, KeySeparator);
  }

  /** `ResourceTransformerBase._key_values(type, *ids)`. */
  function ResourceKeyValues(vertexType: string, ids: seq<string>): (fields: seq<string>)
    ensures |fields| == 2 + |ids|
    ensures fields[0] == Resource.Value() && fields[1] == vertexType && fields[2..] == ids
  {
    [Resource.Value(), vertexType] + ids
  }

  /** `AlarmTransformerBase._key_values(sync_type, *ids)`. */
  function AlarmKeyValues(syncType: string, ids: seq<string>): (fields: seq<string>)
    ensures |fields| == 2 + |ids|
    ensures fields[0] == Alarm.Value() && fields[1] == syncType && fields[2..] == ids
  {
    [Alarm.Value(), syncType] + ids
  }

  /** Resource and alarm keys never collide: their first field differs. */
  lemma ResourceAndAlarmKeysDiffer(t1: string, ids1: seq<string>, t2: string, ids2: seq<string>)
    requires SeparatorFree([t1] + ids1) && SeparatorFree([t2] + ids2)
    ensures BuildKey(ResourceKeyValues(t1, ids1)) != BuildKey(AlarmKeyValues(t2, ids2))
  {
    var a, b := ResourceKeyValues(t1, ids1), AlarmKeyValues(t2, ids2);
    assert SeparatorFree(a) by {
      assert a[0] == "RESOURCE" && a[1] == ([t1] + ids1)[0];
      assert forall i :: 2 <= i < |a| ==> a[i] == ([t1] + ids1)[i - 1];
    }
    assert SeparatorFree(b) by {
      assert b[0] == "ALARM" && b[1] == ([t2] + ids2)[0];
      assert forall i :: 2 <= i < |b| ==> b[i] == ([t2] + ids2)[i - 1];
    }
    if BuildKey(a) == BuildKey(b) {
      KeyInjective(a, b);
    }
  }

  /** `create_placeholder_vertex(id=..., type=..., sample_timestamp=...)` of a
      resource transformer (the nova host transformer, for one): only
      key-derivable fields, flagged as a placeholder. */
  function CreatePlaceholderVertex(vertexType: string, id: string, sampleTimestamp: Timestamp): (v: Vertex)
    ensures v.isPlaceholder && !v.isDeleted
    ensures v.category == Some(Resource) && v.vertexType == Some(vertexType) && v.entityId == Some(id)
    ensures v.sampleTimestamp == Some(sampleTimestamp) && v.state == None
  {
    Vertex(BuildKey(ResourceKeyValues(vertexType, [id])), Some(Resource), Some(vertexType),
           Some(id), None, Some(sampleTimestamp), None, true, false, map[])
  }

  /** A placeholder's key splits back into `[RESOURCE, type, id]`. */
  lemma PlaceholderKeyFields(vertexType: string, id: string, sampleTimestamp: Timestamp)
    requires KeySeparator !in vertexType && KeySeparator !in id
    ensures Split(CreatePlaceholderVertex(vertexType, id, sampleTimestamp).vertexId, KeySeparator)
            == [Resource.Value(), vertexType, id]
  {
    var fields := ResourceKeyValues(vertexType, [id]);
    assert fields == [Resource.Value(), vertexType, id];
    KeyRoundTrip(fields);
  }

  /** `create_cluster_placeholder_vertex()`: the one cluster vertex every zone
      hangs from. Only its key, category and type are modelled. */
  function ClusterPlaceholderVertex(): (v: Vertex)
    ensures v.vertexType == Some(OpenstackCluster) && v.category == Some(Resource)
  {
    Vertex(BuildKey([Resource.Value(), OpenstackCluster]), Some(Resource), Some(OpenstackCluster),
           None, None, None, None, false, false, map[])
  }

  /** `is_update_event`: the event came from the update (push) sync mode. */
  predicate IsUpdateEvent(mode: SyncMode)
  {
    mode == Update
  }
}

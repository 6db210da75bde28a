/** The closed enumerations of vitrage/common/constants.py. Each Python class of
    string constants becomes a datatype whose `Value()` is the string the
    source uses, with a parser that inverts it. */
module Constants {
  import opened Wrappers

  /** EdgeLabel: the relationship labels an edge may carry. */
  datatype EdgeLabel = On | Contains | Causes | Attached | AttachedPublic | AttachedPrivate
  {
    function Value(): string
    {
      match this
      case On => "on"
      case Contains => "contains"
      case Causes => "causes"
      case Attached => "attached"
      case AttachedPublic => "attached_public"
      case AttachedPrivate => "attached_private"
    }
  }

  /** The module-level list `edge_labels`, in the source's order. */
  const EdgeLabels: seq<EdgeLabel> :=
    [On, Contains, Causes, Attached, AttachedPrivate, AttachedPublic]

  function ParseEdgeLabel(s: string): (l: Option<EdgeLabel>)
    ensures l.Some? ==> l.value.Value() == s
  {
    if s == "on" then Some(On)
    else if s == "contains" then Some(Contains)
    else if s == "causes" then Some(Causes)
    else if s == "attached" then Some(Attached)
    else if s == "attached_public" then Some(AttachedPublic)
    else if s == "attached_private" then Some(AttachedPrivate)
    else None
  }

  lemma EdgeLabelRoundTrip(l: EdgeLabel)
    ensures ParseEdgeLabel(l.Value()) == Some(l)
  {
    match l
    case On =>
    case Contains =>
    case Causes =>
    case Attached =>
    case AttachedPublic =>
    case AttachedPrivate =>
  }

  /** `edge_labels` lists every label exactly once, and no two labels share a string. */
  lemma EdgeLabelsComplete()
    ensures |EdgeLabels| == 6
    ensures forall l: EdgeLabel :: l in EdgeLabels
    ensures forall i, j :: 0 <= i < j < |EdgeLabels| ==> EdgeLabels[i].Value() != EdgeLabels[j].Value()
  {
    forall l: EdgeLabel ensures l in EdgeLabels {
      match l
      case On => assert EdgeLabels[0] == l;
      case Contains => assert EdgeLabels[1] == l;
      case Causes => assert EdgeLabels[2] == l;
      case Attached => assert EdgeLabels[3] == l;
      case AttachedPrivate => assert EdgeLabels[4] == l;
      case AttachedPublic => assert EdgeLabels[5] == l;
    }
    forall i, j | 0 <= i < j < |EdgeLabels|
      ensures EdgeLabels[i].Value() != EdgeLabels[j].Value()
    {
      EdgeLabelRoundTrip(EdgeLabels[i]);
      EdgeLabelRoundTrip(EdgeLabels[j]);
    }
  }

  /** SyncMode: how a datasource event was obtained. */
  datatype SyncMode = Snapshot | InitSnapshot | Update
  {
    function Value(): string
    {
      match this
      case Snapshot => "snapshot"
      case InitSnapshot => "init_snapshot"
      case Update => "update"
    }
  }

  function ParseSyncMode(s: string): (m: Option<SyncMode>)
    ensures m.Some? ==> m.value.Value() == s
  {
    if s == "snapshot" then Some(Snapshot)
    else if s == "init_snapshot" then Some(InitSnapshot)
    else if s == "update" then Some(Update)
    else None
  }

  lemma SyncModeRoundTrip(m: SyncMode)
    ensures ParseSyncMode(m.Value()) == Some(m)
  {
    match m
    case Snapshot =>
    case InitSnapshot =>
    case Update =>
  }

  /** The three sync modes have three distinct strings. */
  lemma SyncModeValuesDistinct(a: SyncMode, b: SyncMode)
    ensures a.Value() == b.Value() ==> a == b
  {
    SyncModeRoundTrip(a);
    SyncModeRoundTrip(b);
  }

  /** EntityCategory: the two top-level entity kinds. */
  datatype EntityCategory = Resource | Alarm
  {
    function Value(): string
    {
      match this
      case Resource => "RESOURCE"
      case Alarm => "ALARM"
    }
  }

  /** The module-level list `entities_categories`. */
  const EntitiesCategories: seq<EntityCategory> := [Resource, Alarm]

  function ParseEntityCategory(s: string): (c: Option<EntityCategory>)
    ensures c.Some? ==> c.value.Value() == s
  {
    if s == "RESOURCE" then Some(Resource)
    else if s == "ALARM" then Some(Alarm)
    else None
  }

  /** `entities_categories` holds each category once, RESOURCE first. */
  lemma EntitiesCategoriesComplete()
    ensures forall c: EntityCategory :: c in EntitiesCategories
    ensures EntitiesCategories[0].Value() != EntitiesCategories[1].Value()
    ensures ParseEntityCategory(Resource.Value()) == Some(Resource)
    ensures ParseEntityCategory(Alarm.Value()) == Some(Alarm)
  {
    forall c: EntityCategory ensures c in EntitiesCategories {
      match c
      case Resource => assert EntitiesCategories[0] == c;
      case Alarm => assert EntitiesCategories[1] == c;
    }
  }

  /** EventAction: what the entity graph processor is asked to do. */
  datatype EventAction =
    | CreateEntity | DeleteEntity | UpdateEntity | DeleteRelationship
    | UpdateRelationship | RemoveDeletedEntity | EndMessage
  {
    function Value(): string
    {
      match this
      case CreateEntity => "create_entity"
      case DeleteEntity => "delete_entity"
      case UpdateEntity => "update_entity"
      case DeleteRelationship => "delete_relationship"
      case UpdateRelationship => "update_relationship"
      case RemoveDeletedEntity => "remove_deleted_entity"
      case EndMessage => "end_message"
    }
  }

  function ParseEventAction(s: string): (a: Option<EventAction>)
    ensures a.Some? ==> a.value.Value() == s
  {
    if s == "create_entity" then Some(CreateEntity)
    else if s == "delete_entity" then Some(DeleteEntity)
    else if s == "update_entity" then Some(UpdateEntity)
    else if s == "delete_relationship" then Some(DeleteRelationship)
    else if s == "update_relationship" then Some(UpdateRelationship)
    else if s == "remove_deleted_entity" then Some(RemoveDeletedEntity)
    else if s == "end_message" then Some(EndMessage)
    else None
  }

  lemma EventActionRoundTrip(a: EventAction)
    ensures ParseEventAction(a.Value()) == Some(a)
  {
    match a
    case CreateEntity =>
    case DeleteEntity =>
    case UpdateEntity =>
    case DeleteRelationship =>
    case UpdateRelationship =>
    case RemoveDeletedEntity =>
    case EndMessage =>
  }

  /** The seven event actions have seven distinct strings. */
  lemma EventActionValuesDistinct(a: EventAction, b: EventAction)
    ensures a.Value() == b.Value() ==> a == b
  {
    EventActionRoundTrip(a);
    EventActionRoundTrip(b);
  }

  /** VertexProperties: the property names of a graph vertex. */
  datatype VertexProperty =
    | Category | Type | Id | IsDeleted | State | VitrageState | AggregatedState
    | OperationalState | ProjectId | UpdateTimestamp | SampleTimestamp | Name
    | IsPlaceholder | Severity | AggregatedSeverity | OperationalSeverity
    | VitrageId | Info | GraphIndex
  {
    function Key(): string
    {
      match this
      case Category => "category"
      case Type => "type"
      case Id => "id"
      case IsDeleted => "is_deleted"
      case State => "state"
      case VitrageState => "vitrage_state"
      case AggregatedState => "aggregated_state"
      case OperationalState => "operational_state"
      case ProjectId => "project_id"
      case UpdateTimestamp => "update_timestamp"
      case SampleTimestamp => "sample_timestamp"
      case Name => "name"
      case IsPlaceholder => "is_placeholder"
      case Severity => "severity"
      case AggregatedSeverity => "aggregated_severity"
      case OperationalSeverity => "operational_severity"
      case VitrageId => "vitrage_id"
      case Info => "info"
      case GraphIndex => "graph_index"
    }
  }

  function ParseVertexProperty(s: string): (p: Option<VertexProperty>)
    ensures p.Some? ==> p.value.Key() == s
  {
    if s == "category" then Some(Category)
    else if s == "type" then Some(Type)
    else if s == "id" then Some(Id)
    else if s == "is_deleted" then Some(IsDeleted)
    else if s == "state" then Some(State)
    else if s == "vitrage_state" then Some(VitrageState)
    else if s == "aggregated_state" then Some(AggregatedState)
    else if s == "operational_state" then Some(OperationalState)
    else if s == "project_id" then Some(ProjectId)
    else if s == "update_timestamp" then Some(UpdateTimestamp)
    else if s == "sample_timestamp" then Some(SampleTimestamp)
    else if s == "name" then Some(Name)
    else if s == "is_placeholder" then Some(IsPlaceholder)
    else if s == "severity" then Some(Severity)
    else if s == "aggregated_severity" then Some(AggregatedSeverity)
    else if s == "operational_severity" then Some(OperationalSeverity)
    else if s == "vitrage_id" then Some(VitrageId)
    else if s == "info" then Some(Info)
    else if s == "graph_index" then Some(GraphIndex)
    else None
  }

  /** The first ten properties' keys parse back to them. */
  lemma VertexPropertyRoundTripLow(p: VertexProperty)
    requires p in {Category, Type, Id, IsDeleted, State, VitrageState, AggregatedState,
                   OperationalState, ProjectId, UpdateTimestamp}
    ensures ParseVertexProperty(p.Key()) == Some(p)
  {
    match p
    case Category =>
    case Type =>
    case Id =>
    case IsDeleted =>
    case State =>
    case VitrageState =>
    case AggregatedState =>
    case OperationalState =>
    case ProjectId =>
    case UpdateTimestamp =>
  }

  /** The next five properties' keys parse back to them. */
  lemma VertexPropertyRoundTripMid(p: VertexProperty)
    requires p in {SampleTimestamp, Name, IsPlaceholder, Severity, AggregatedSeverity}
    ensures ParseVertexProperty(p.Key()) == Some(p)
  {
    match p
    case SampleTimestamp =>
    case Name =>
    case IsPlaceholder =>
    case Severity =>
    case AggregatedSeverity =>
  }

  /** The last four properties' keys parse back to them. */
  lemma VertexPropertyRoundTripHigh(p: VertexProperty)
    requires p in {OperationalSeverity, VitrageId, Info, GraphIndex}
    ensures ParseVertexProperty(p.Key()) == Some(p)
  {
    match p
    case OperationalSeverity =>
    case VitrageId =>
    case Info =>
    case GraphIndex =>
  }

  lemma VertexPropertyRoundTrip(p: VertexProperty)
    ensures ParseVertexProperty(p.Key()) == Some(p)
  {
    if p in {Category, Type, Id, IsDeleted, State, VitrageState, AggregatedState,
             OperationalState, ProjectId, UpdateTimestamp} {
      VertexPropertyRoundTripLow(p);
    } else if p in {SampleTimestamp, Name, IsPlaceholder, Severity, AggregatedSeverity} {
      VertexPropertyRoundTripMid(p);
    } else {
      VertexPropertyRoundTripHigh(p);
    }
  }

  /** No two vertex properties share a key string, so a property map keyed by
      these strings never lets one property overwrite another. */
  lemma VertexPropertyKeysDistinct(p: VertexProperty, q: VertexProperty)
    ensures p.Key() == q.Key() ==> p == q
  {
    VertexPropertyRoundTrip(p);
    VertexPropertyRoundTrip(q);
  }
}

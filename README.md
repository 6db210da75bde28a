# A Dafny model of vitrage's template validator, graph notifier and transformers

Vitrage is an OpenStack root-cause analysis service that keeps an entity graph of resources and alarms. This project models three parts of it and proves properties of the model:

- **The template content validator** (`template_content_validator.dfy`) is a staged, short-circuiting check of a parsed template. It checks entities first, then relationships (when the section exists), then every scenario's condition and actions. Its verdict is a `Result(description, isValid, comment)`; a failure names one numbered error. Each of the validator's loops is a method proved equal to a recursive stage function. Lemmas then characterise each stage: what it accepts, which error codes it can report, and when error 2 (not unique id) can arise.
- **The graph notifier** (`notifier.dfy`):
  - The `Notifier` class holds the ordered list of subscribed callbacks.
  - The `Graph` class models the `update_notify` and `add_notify` wrappers around a graph mutation.
  - A callback call is recorded as a `Delivery` in the notifier's `log`. Every read, mutation and notification a wrapper performs is recorded in the graph's `trace`. The contracts therefore state the exact order of effects and the arguments every callback receives.
- **The transformers**, which turn datasource events into vertices and neighbour edges:
  - the current nova zone transformer (`nova_zone_transformer.dfy`);
  - the synchronizer-era nova zone transformer (`legacy_zone_transformer.dfy`);
  - the aodh alarm transformer (`aodh_transformer.dfy`);
  - the neutron network transformer (`neutron_network_transformer.dfy`);
  - the consistency transformer (`consistency_transformer.dfy`).

  They share the vertex, edge and key model in `transformer_base.dfy`. Entity keys are `:`-joined field lists. The model proves that keys built from fields without `:` read back into their fields, and that two such keys are equal only when their field lists are. The constants they use are in `constants.dfy`.

`strings.dfy` models the Python string operations the code relies on:

- `str.split` with a one-character separator, which keeps empty pieces;
- separator `join`;
- left-to-right `str.replace`.

`wrappers.dfy` holds `Option` and `Result`.

## Quirks of the code the model keeps

- **Condition ids.** `validate_scenarios` passes only the relationship ids to `validate_scenario_condition` (`template_content_validator.py:120`), so a condition token naming an entity fails with error 3. `TemplateContentValidator.EntityConditionRejected` proves this.
- **Relationship id uniqueness.** Error 2 is the "not unique" error, and `test_validate_relationship_with_no_unique_template_id` (`test_template_content_validator.py:62-72`) expects it for a relationship id that repeats an entity id. The code looks the id up in `entities_ids or relationships_ids` (line 99). That expression is the entity list whenever any entity exists, so two relationships sharing an id are accepted (`SharedRelationshipIdAccepted`, `NotUniqueIdCauses`).
- **Condition tokens.** The operators and parentheses are blanked out and the result is split at single spaces. A condition starting with `(` therefore yields an empty first token and fails (`OpeningParenthesisRejected`).
- **Legacy host neighbours.** The synchronizer-era transformer gives its host neighbours the zone type `nova.zone` (`synchronizer/plugins/nova/zone/transformer.py:170`). The model keeps that type.
- **Keys with `:` in a field.** `build_key` joins fields with `:` and nothing escapes a `:` inside a field. An aodh alarm `n` on resource `r` and an alarm named `r:n` with no resource both get `ALARM:<sync_type>:r:n` (`AodhTransformer.SeparatorInNameCollides`). This is why every key lemma requires fields without `:`.

## Model

| member | source | states |
|---|---|---|
| Constants.ParseEdgeLabel | vitrage/common/constants.py:45-51 | a parsed label's value is the parsed string |
| Constants.EdgeLabelRoundTrip | vitrage/common/constants.py:45-51 | every edge label's value parses back to the label |
| Constants.EdgeLabelsComplete | vitrage/common/constants.py:53-58 | `edge_labels` has six entries, lists every label, and its values are pairwise distinct |
| Constants.ParseSyncMode | vitrage/common/constants.py:61-64 | a parsed sync mode's value is the parsed string |
| Constants.SyncModeRoundTrip | vitrage/common/constants.py:61-64 | every sync mode's value parses back to the mode |
| Constants.SyncModeValuesDistinct | vitrage/common/constants.py:61-64 | distinct sync modes have distinct values |
| Constants.ParseEntityCategory | vitrage/common/constants.py:67-69 | a parsed category's value is the parsed string |
| Constants.EntitiesCategoriesComplete | vitrage/common/constants.py:72-73 | `entities_categories` lists RESOURCE and ALARM, each once |
| Constants.ParseEventAction | vitrage/common/constants.py:83-90 | a parsed event action's value is the parsed string |
| Constants.EventActionRoundTrip | vitrage/common/constants.py:83-90 | every event action's value parses back to the action |
| Constants.EventActionValuesDistinct | vitrage/common/constants.py:83-90 | the seven event actions have pairwise distinct values |
| Constants.ParseVertexProperty | vitrage/common/constants.py:17-36 | a parsed vertex property's key is the parsed string |
| Constants.VertexPropertyRoundTrip | vitrage/common/constants.py:17-36 | every vertex property's key parses back to the property |
| Constants.VertexPropertyKeysDistinct | vitrage/common/constants.py:17-36 | the nineteen vertex property keys are pairwise distinct |
| TransformerBase.KeyRoundTrip | vitrage/datasources/nova/zone/transformer.py:147-152 | a key built from separator-free fields splits back into exactly those fields |
| TransformerBase.KeyInjective | vitrage/datasources/nova/zone/transformer.py:147-152 | two separator-free field lists with the same key are equal |
| TransformerBase.ResourceKeyValues | vitrage/datasources/nova/zone/transformer.py:151 | resource key fields are RESOURCE, the type, then the ids |
| TransformerBase.AlarmKeyValues | vitrage/datasources/aodh/transformer.py:132-135 | alarm key fields are ALARM, the sync type, then the ids |
| TransformerBase.ResourceAndAlarmKeysDiffer | vitrage/datasources/aodh/transformer.py:129-135 | a resource key never equals an alarm key |
| TransformerBase.CreatePlaceholderVertex | vitrage/datasources/nova/zone/transformer.py:130-136 | a resource placeholder carries category, type, id and sample timestamp, no state, and is flagged as a placeholder |
| TransformerBase.PlaceholderKeyFields | vitrage/datasources/nova/zone/transformer.py:130-136 | a placeholder's key reads back as `[RESOURCE, type, id]` |
| TransformerBase.ClusterPlaceholderVertex | vitrage/datasources/nova/zone/transformer.py:117 | the cluster placeholder is a RESOURCE of type openstack.cluster |
| TemplateContentValidator.GetCorrectResult | vitrage/evaluator/template_validation/template_content_validator.py:251-252 | the OK result is valid and has the canonical description and OK comment |
| TemplateContentValidator.GetFaultResult | vitrage/evaluator/template_validation/template_content_validator.py:255-256 | a fault result is invalid, canonical, and carries its error code |
| TemplateContentValidator.FaultResultsDiffer | vitrage/evaluator/template_validation/template_content_validator.py:251-256 | two fault results are equal exactly when their codes are, and no fault equals the OK result |
| TemplateContentValidator.ValidateTemplateId | vitrage/evaluator/template_validation/template_content_validator.py:242-248 | valid exactly when the id is declared; otherwise error 3 |
| TemplateContentValidator.ValidateEntityDefinition | vitrage/evaluator/template_validation/template_content_validator.py:69-76 | valid exactly when the entity id is not taken; otherwise error 2 |
| TemplateContentValidator.ListOr | vitrage/evaluator/template_validation/template_content_validator.py:99 | Python's `a or b` on lists: `a` when non-empty, else `b` |
| TemplateContentValidator.ValidateRelationship | vitrage/evaluator/template_validation/template_content_validator.py:96-110 | valid exactly when the id is not in `entity_ids or relationship_ids` and both ends are entity ids; error 2 exactly for the id clash, error 3 exactly for an unknown end |
| TemplateContentValidator.ValidateRaiseAlarmAction | vitrage/evaluator/template_validation/template_content_validator.py:182-200 | valid exactly when alarm name, severity and a declared target exist; each of the errors 125, 126, 127 and 3 exactly when its check is the first to fail |
| TemplateContentValidator.ValidateSetStateAction | vitrage/evaluator/template_validation/template_content_validator.py:203-217 | valid exactly when a state and a declared target exist; errors 128, 129 and 3, each exactly for its first-failing check |
| TemplateContentValidator.ValidateAddCausalRelationshipAction | vitrage/evaluator/template_validation/template_content_validator.py:220-239 | valid exactly when target and source exist and are declared; 130 for a missing end, 3 for an undeclared one, in target-then-source order |
| TemplateContentValidator.ValidateScenarioAction | vitrage/evaluator/template_validation/template_content_validator.py:167-179 | valid exactly when the action is well formed for its type; error 120 exactly for an unknown type; failures only with action codes |
| TemplateContentValidator.ConditionTokensClean | vitrage/evaluator/template_validation/template_content_validator.py:142-147 | no condition token contains a space or a parenthesis |
| TemplateContentValidator.ConditionOutcome | vitrage/evaluator/template_validation/template_content_validator.py:134-153 | error 85 exactly when DNF conversion fails; valid exactly when it succeeds and every token is a given id; error 3 when it succeeds and some token is not a given id |
| TemplateContentValidator.ValidateEntitiesDefinition | vitrage/evaluator/template_validation/template_content_validator.py:54-66 | the loop returns the entities stage's result and leaves `entity_ids` as that stage leaves it |
| TemplateContentValidator.ValidateRelationshipsDefinitions | vitrage/evaluator/template_validation/template_content_validator.py:79-93 | the loop returns the relationships stage's result and the relationship ids it accumulates |
| TemplateContentValidator.ValidateScenarioCondition | vitrage/evaluator/template_validation/template_content_validator.py:134-153 | the reduce-and-scan loops compute the condition outcome |
| TemplateContentValidator.ValidateScenarioActions | vitrage/evaluator/template_validation/template_content_validator.py:156-164 | the loop returns the first failing action's result, or OK |
| TemplateContentValidator.ValidateScenarios | vitrage/evaluator/template_validation/template_content_validator.py:113-131 | the loop returns the first failing scenario's result, or OK, checking conditions against relationship ids and actions against entity ids |
| TemplateContentValidator.ContentValidation | vitrage/evaluator/template_validation/template_content_validator.py:30-51 | the validator returns the staged content outcome; relationships are checked only when the section exists |
| TemplateContentValidator.EntitiesOutcomeMeaning | vitrage/evaluator/template_validation/template_content_validator.py:54-76 | the entities stage is canonical, succeeds exactly when no id repeats or is taken, then hands on all entity ids, and fails only with error 2 |
| TemplateContentValidator.RelationshipIdsNeverDecide | vitrage/evaluator/template_validation/template_content_validator.py:96-110 | a relationship is accepted exactly when its id is not an entity id and both ends are; the relationship ids seen so far never change the verdict when entities exist |
| TemplateContentValidator.RelationshipsOutcomeMeaning | vitrage/evaluator/template_validation/template_content_validator.py:79-110 | the relationships stage is canonical, succeeds exactly when every relationship is accepted, and then hands on all relationship ids |
| TemplateContentValidator.RelationshipsNotUniqueId | vitrage/evaluator/template_validation/template_content_validator.py:96-101 | error 2 from the relationships stage means some relationship id is an entity id |
| TemplateContentValidator.ActionsOutcomeMeaning | vitrage/evaluator/template_validation/template_content_validator.py:156-179 | the actions stage succeeds exactly when every action is well formed; a failure is the result of the first ill-formed action |
| TemplateContentValidator.ActionsOutcomeAccepted | vitrage/evaluator/template_validation/template_content_validator.py:156-164 | the actions stage is canonical, fails only with action error codes, and succeeds exactly when every action is well formed |
| TemplateContentValidator.ScenarioOutcomeMeaning | vitrage/evaluator/template_validation/template_content_validator.py:117-129 | one scenario passes exactly when its condition converts, names only relationship ids, and its actions are well formed; it fails only with code 85 or an action code; 85 when the condition does not convert, and 3 when it converts but a token is not a relationship id |
| TemplateContentValidator.ScenariosOutcomeMeaning | vitrage/evaluator/template_validation/template_content_validator.py:113-131 | the scenarios stage is canonical, succeeds exactly when every scenario is well formed, and fails only with code 85 or an action code |
| TemplateContentValidator.ContentOutcomeMeaning | vitrage/evaluator/template_validation/template_content_validator.py:30-51 | content validation is canonical and accepts exactly the well-formed templates |
| TemplateContentValidator.DuplicateEntityIdRejected | vitrage/evaluator/template_validation/template_content_validator.py:54-76 | two entities with one id make the whole template fail with error 2 |
| TemplateContentValidator.NotUniqueIdCauses | vitrage/evaluator/template_validation/template_content_validator.py:96-101 | a template fails with error 2 only for a repeated entity id or a relationship id that is an entity id |
| TemplateContentValidator.ScenariosNeverNotUnique | vitrage/evaluator/template_validation/template_content_validator.py:113-131 | the scenarios stage never reports error 2 |
| TemplateContentValidator.SharedRelationshipIdAccepted | vitrage/evaluator/template_validation/template_content_validator.py:99 | a template with two relationships sharing an id is accepted |
| TemplateContentValidator.ConditionReplacements | vitrage/evaluator/template_validation/template_content_validator.py:142-145 | the reduce blanks ` and `, ` or `, ` not `, `(` and `)` in that order |
| TemplateContentValidator.BareNameTokens | vitrage/evaluator/template_validation/template_content_validator.py:142-147 | a name without spaces or parentheses is its own single token |
| TemplateContentValidator.OpeningParenthesisRejected | vitrage/evaluator/template_validation/template_content_validator.py:142-151 | a condition starting with `(` has an empty first token and fails with 3, or 85 when it does not convert |
| TemplateContentValidator.EntityConditionRejected | vitrage/evaluator/template_validation/template_content_validator.py:113-120 | a condition naming a declared entity fails with error 3 when there are no relationships |
| GraphNotifier.DeliveriesMeaning | vitrage/graph/driver/notifier.py:44-46 | notifying makes one call per subscription, in order, each with the same arguments |
| GraphNotifier.DeliveriesFollowSubscriptions | vitrage/graph/driver/notifier.py:44-46 | the called functions are exactly the subscriptions in order, and all receive the notification |
| GraphNotifier.DeliveriesAppend | vitrage/graph/driver/notifier.py:45-46 | calling a longer list first makes the calls of its prefix |
| GraphNotifier.Notifier.constructor | vitrage/graph/driver/notifier.py:35-36 | a new notifier has no subscriptions and has made no calls |
| GraphNotifier.Notifier.Subscribe | vitrage/graph/driver/notifier.py:38-39 | the function is appended to the subscriptions, no call is made, and the notifier is then subscribed |
| GraphNotifier.Notifier.IsSubscribed | vitrage/graph/driver/notifier.py:41-42 | true exactly when some function is subscribed |
| GraphNotifier.Notifier.Notify | vitrage/graph/driver/notifier.py:44-46 | the subscriptions are unchanged and the log grows by one call per subscription, in order |
| GraphNotifier.AfterNotification | vitrage/graph/driver/notifier.py:29-31 | the notification carries the before-value, the item as it is after the mutation, and whether it is a vertex |
| GraphNotifier.Graph.constructor | vitrage/graph/driver/notifier.py:31 | a graph starts empty, with no recorded steps, around the given `graph.notifier` |
| GraphNotifier.Graph.GetItem | vitrage/graph/driver/notifier.py:23 | `graph.get_item` returns the element stored under the item, or None, changes nothing and is recorded as one read |
| GraphNotifier.Graph.Apply | vitrage/graph/driver/notifier.py:53 | the wrapped mutation is applied once and recorded |
| GraphNotifier.Graph.BeforeFunc | vitrage/graph/driver/notifier.py:20-23 | without subscribers nothing is read and the result is None; otherwise the item is read once |
| GraphNotifier.Graph.AfterFunc | vitrage/graph/driver/notifier.py:26-31 | without subscribers nothing happens; otherwise the item is read twice and every subscription is called with the after-notification |
| GraphNotifier.Graph.UpdateNotify | vitrage/graph/driver/notifier.py:48-55 | the mutation is applied once; with subscribers the item is read before and after it, and every subscription receives the old item as before-value; without subscribers nothing else happens |
| GraphNotifier.Graph.AddNotify | vitrage/graph/driver/notifier.py:57-63 | the mutation is applied once; with subscribers every subscription receives no before-value and the new item |
| NovaZoneTransformer.CreateEntityKey | vitrage/datasources/nova/zone/transformer.py:147-152 | for a zone name without `:`, the zone key reads back as `[RESOURCE, nova.zone, zoneName]` |
| NovaZoneTransformer.ZoneKeyDependsOnlyOnName | vitrage/datasources/nova/zone/transformer.py:147-152 | two zone events share a key exactly when they name the same zone |
| NovaZoneTransformer.ZoneState | vitrage/datasources/nova/zone/transformer.py:44-48 | the zone is available exactly when `zoneState.available` holds |
| NovaZoneTransformer.CreateVertex | vitrage/datasources/nova/zone/transformer.py:55-74 | the zone vertex is a RESOURCE of type nova.zone, keyed by the zone, named after it, with the sample timestamp |
| NovaZoneTransformer.CreateSnapshotEntityVertex | vitrage/datasources/nova/zone/transformer.py:41-50 | the snapshot vertex has the zone key, the zone name as entity id and name metadata, the sample timestamp, and its state is available exactly when the zone is |
| NovaZoneTransformer.CreateUpdateEntityVertex | vitrage/datasources/nova/zone/transformer.py:52-53 | zone updates produce no vertex |
| NovaZoneTransformer.CreateClusterNeighbor | vitrage/datasources/nova/zone/transformer.py:114-123 | the cluster placeholder contains the zone |
| NovaZoneTransformer.HostState | vitrage/datasources/nova/zone/transformer.py:98-100 | a host is available exactly when its compute service is available and active |
| NovaZoneTransformer.CreateHostNeighbor | vitrage/datasources/nova/zone/transformer.py:125-145 | the host vertex is the host placeholder with the state set and the placeholder flag cleared, contained in the zone |
| NovaZoneTransformer.CreateNovaZoneNeighbors | vitrage/datasources/nova/zone/transformer.py:82-112 | the cluster neighbour comes first, then one host neighbour per host in order when a host transformer exists, and nothing else |
| NovaZoneTransformer.ZoneNeighborsShape | vitrage/datasources/nova/zone/transformer.py:114-145 | host edges leave the zone and are `contains` edges, the cluster edge reaches the zone, and no host is the cluster |
| AodhTransformer.CreateEntityKey | vitrage/datasources/aodh/transformer.py:125-135 | a vitrage alarm's key is its vitrage id; otherwise the key reads back as `[ALARM, sync_type, resource_id, name]` with a resource and as `[ALARM, sync_type, name]` without one |
| AodhTransformer.GetEnrichQuery | vitrage/datasources/aodh/transformer.py:144-149 | no query without a non-empty resource id, otherwise the query on that id |
| AodhTransformer.AlarmMetadata | vitrage/datasources/aodh/transformer.py:49-64 | the metadata holds the seven base fields, plus the event type for event alarms or the state timestamp for threshold alarms |
| AodhTransformer.CreateVertex | vitrage/datasources/aodh/transformer.py:48-79 | an ordinary alarm vertex is an active ALARM of the sync type, with the alarm's key, id, sample timestamp and metadata |
| AodhTransformer.CreateMergeAlarmVertex | vitrage/datasources/aodh/transformer.py:98-120 | a merged alarm vertex has type vitrage and no state, and refreshes only its description and project id |
| AodhTransformer.CreateSnapshotEntityVertex | vitrage/datasources/aodh/transformer.py:38-41 | a vitrage-raised alarm gives a vertex keyed by its vitrage id, of type vitrage, with no state and only description and project id; any other alarm gives an active vertex of its sync type with the full alarm metadata |
| AodhTransformer.SeparatorInNameCollides | vitrage/datasources/aodh/transformer.py:125-135 | an alarm `n` on resource `r` and an alarm named `r:n` without a resource get the same key |
| AodhTransformer.CreateUpdateEntityVertex | vitrage/datasources/aodh/transformer.py:43-46 | updates produce the same vertex as snapshots |
| AodhTransformer.CreateAodhNeighbors | vitrage/datasources/aodh/transformer.py:87-96 | one neighbour per queried vertex, in order, each linked by an `on` edge from the alarm's key |
| NetworkTransformer.UpdateEventAction | vitrage/datasources/neutron/network/transformer.py:30-32 | only `network.delete.end` maps to an action, namely delete_entity |
| NetworkTransformer.KeyId | vitrage/datasources/neutron/network/transformer.py:38-39 | update events are keyed by `network_id`, others by `id` |
| NetworkTransformer.CreateEntityKey | vitrage/datasources/neutron/network/transformer.py:37-43 | for a key id without `:`, the network key reads back as `[RESOURCE, neutron.network, id]` |
| NetworkTransformer.NetworkKeyDependsOnlyOnId | vitrage/datasources/neutron/network/transformer.py:37-43 | two network events share a key exactly when their key ids agree |
| NetworkTransformer.CreateVertex | vitrage/datasources/neutron/network/transformer.py:52-74 | the network vertex is a RESOURCE of type neutron.network with the given name, id and state and the sample timestamp |
| NetworkTransformer.CreateSnapshotEntityVertex | vitrage/datasources/neutron/network/transformer.py:45-50 | a snapshot vertex has the network key, and the snapshot's name, id and status become the vertex's name, entity id and state |
| NetworkTransformer.CreateUpdateEntityVertex | vitrage/datasources/neutron/network/transformer.py:76-77 | updates produce no vertex |
| NetworkTransformer.SnapshotKeyNamesNetwork | vitrage/datasources/neutron/network/transformer.py:37-50 | a snapshot vertex's key names its own entity id |
| ConsistencyTransformer.UpdateEventAction | vitrage/datasources/consistency/transformer.py:31-34 | exactly the two deletion actions are mapped, each to itself |
| ConsistencyTransformer.CreateVertex | vitrage/datasources/consistency/transformer.py:45-49 | the vertex has the event's vitrage id and sample timestamp and nothing else |
| ConsistencyTransformer.CreateSnapshotEntityVertex | vitrage/datasources/consistency/transformer.py:39-40 | a snapshot gives the bare vertex with the event's vitrage id and sample timestamp |
| ConsistencyTransformer.CreateUpdateEntityVertex | vitrage/datasources/consistency/transformer.py:42-43 | updates produce the same vertex as snapshots |
| ConsistencyTransformer.CreateEntityKey | vitrage/datasources/consistency/transformer.py:51-52 | consistency events have no key |
| ConsistencyTransformer.CreateSnapshotNeighbors | vitrage/datasources/consistency/transformer.py:54-55 | snapshots have no neighbours |
| ConsistencyTransformer.CreateUpdateNeighbors | vitrage/datasources/consistency/transformer.py:57-58 | updates have no neighbours |
| LegacyZoneTransformer.PathTablesCoverSnapshotsOnly | vitrage/synchronizer/plugins/nova/zone/transformer.py:39-69 | every field-path table covers the snapshot and init-snapshot modes and nothing else |
| LegacyZoneTransformer.KeyValues | vitrage/synchronizer/plugins/nova/zone/transformer.py:190-191 | key fields are RESOURCE, nova.zone, then the given fields |
| LegacyZoneTransformer.ExtractKey | vitrage/synchronizer/plugins/nova/zone/transformer.py:181-188 | an update event is a KeyError on its mode; otherwise the key is built from the zone name |
| LegacyZoneTransformer.ExtractKeyFields | vitrage/synchronizer/plugins/nova/zone/transformer.py:181-191 | a snapshot zone key reads back as `[RESOURCE, nova.zone, zoneName]` |
| LegacyZoneTransformer.CreateEntityVertex | vitrage/synchronizer/plugins/nova/zone/transformer.py:74-104 | an update event is a KeyError; otherwise the zone vertex, with the sample date as update timestamp, available exactly when the zone is |
| LegacyZoneTransformer.CreateNodeNeighbor | vitrage/synchronizer/plugins/nova/zone/transformer.py:148-157 | the node contains the zone |
| LegacyZoneTransformer.CreateHostNeighbor | vitrage/synchronizer/plugins/nova/zone/transformer.py:159-179 | the host vertex is keyed by the host transformer but typed nova.zone, and is contained in the zone |
| LegacyZoneTransformer.CreateNeighbors | vitrage/synchronizer/plugins/nova/zone/transformer.py:106-146 | an update event is a KeyError; otherwise the node neighbour, then one host neighbour per host in order when a host transformer exists |
| LegacyZoneTransformer.CreatePlaceholderVertex | vitrage/synchronizer/plugins/nova/zone/transformer.py:193-207 | a missing id is a ValueError, a missing update timestamp a KeyError; otherwise a zone placeholder keyed by the id |
| LegacyZoneTransformer.PlaceholderMatchesZoneVertex | vitrage/synchronizer/plugins/nova/zone/transformer.py:181-207 | a zone placeholder has the zone vertex's key exactly when its id is the zone name |

## Left out

- Logging (`LOG.error`, `LOG.warning`) is not modelled; it changes no result.
- Event and template fields read with `[]` are record fields here, so the KeyError Python raises for an absent field is not modelled. Fields read with `get`, or that may be None, are `Option`s.
- `Template.convert_to_dnf_format` is not part of this model. The parameter `dnfOk` says whether the conversion succeeds.
- The `error_msgs` texts, `TemplateFields` and `ActionType` are not part of this model. Errors are represented by their `error_msgs` keys; the field and action names are assumed to be their lower-case snake_case spellings.
- Update timestamps of the current transformers are not modelled. `_format_update_timestamp` and aodh's `_timestamp` (date formatting) are not part of this model, so `updateTimestamp` is left None there.
- The transformer registry lookup `self.transformers[NOVA_HOST_DATASOURCE]` is modelled by a boolean saying whether a host transformer is registered. The KeyError for a registry without that entry is not modelled.
- `transformer_base` (`build_key`, `Neighbor`, `create_cluster_placeholder_vertex`, `create_node_placeholder_vertex`, `is_update_event`), `ResourceTransformerBase`, `AlarmTransformerBase` and `graph_utils` are not part of this model. Only the helpers the modelled transformers call are given meaning:
  - `build_key` joins with `:`;
  - the key values are category, type, then ids;
  - the nova host transformer's `key_values` and `create_placeholder_vertex` follow the resource base;
  - the cluster placeholder has only a key, a category and a type;
  - `is_update_event` holds exactly for events of the update sync mode;
  - the graph's `is_subscribed` is its notifier's `is_subscribed`, so `Graph.BeforeFunc` and `Graph.AfterFunc` ask the notifier.
- TransformerBase.BuildKey, TransformerBase.IsUpdateEvent and LegacyZoneTransformer.HostKeyValues are these assumed helpers written out. They carry no contract of their own; `KeyRoundTrip`, `KeyInjective`, `NetworkTransformer.KeyId` and `LegacyZoneTransformer.CreateHostNeighbor` state what is proved about them.
- AodhTransformer.IsVitrageAlarm and AodhTransformer.HasResource are `_is_vitrage_alarm` and the truthiness of the resource id, written out. They carry no contract of their own; `AodhTransformer.CreateEntityKey`, `GetEnrichQuery` and `CreateSnapshotEntityVertex` state their effect.
- AodhTransformer.OkStatus is `_ok_status` written out. Its only caller, the alarm base's choice of event action, is not part of this model, so nothing is proved about it.
- The `transform` entry points and the action classification of the transformer bases are not part of this model.
- LegacyZoneTransformer.CreateNodeNeighbor takes the node placeholder as a parameter, because `create_node_placeholder_vertex` is not part of this model.
- The constants declared outside the modelled files are assumed: `nova.host`, `nova.zone`, `neutron.network`, `openstack.cluster`, the alarm active state `Active`, and the `AodhProps` keys.
- NovaZoneTransformer.CreateHostNeighbor sets the state and clears the placeholder flag of the fresh placeholder in place. This is modelled as a record update, since the placeholder is not shared.
- A host dictionary is iterated in Python's iteration order, which is arbitrary on Python 2 and insertion order from Python 3.7. The model takes that order as its sequence of (name, data) pairs, and "in order" in `NovaZoneTransformer.CreateNovaZoneNeighbors` and `LegacyZoneTransformer.CreateNeighbors` means that iteration order. Duplicate names are not excluded.
- The graph store behind the notifier is a map from item ids to elements. The wrapped mutation is a function on that map, and locking and concurrency are not modelled.
- Callbacks are identified by number and always return. An exception raised by a callback, which the code lets propagate and which stops the remaining calls, is not modelled.
- `NotifierEventTypes`, `EdgeProperties` and the `DatasourceProperties` names serve only as field names of events and are not modelled as separate entities.
- The name constants in the datasources' `__init__` modules, `file_utils`, the REST controller, the mock driver and the tempest tests are outside the modelled core.
- TemplateContentValidator.EntitiesOutcomeMeaning: on a failure it does not state which ids the caller's `entity_ids` list then holds. `ValidateEntitiesDefinition` states it exactly, through `EntitiesOutcome`.

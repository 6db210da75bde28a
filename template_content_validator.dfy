/** The template content validator: a staged, short-circuiting check of a
    parsed template document. Entity ids come first, then relationships (when
    the document has that section), then every scenario's condition and
    actions. The verdict is a `Result(description, isValid, comment)` whose
    comment, on a failure, is the message of one numbered error.

    The DNF conversion of a condition (`Template.convert_to_dnf_format`) is not
    part of this model; it enters as the parameter `dnfOk`, true exactly when
    the conversion succeeds. */
module TemplateContentValidator {
  import opened Strings
  import Wrappers

  type TemplateId = string

  const ResultDescription: string := "Template content validation"
  const CorrectResultMessage: string := "Template content is OK"

  /** The keys of `error_msgs` that this validator reports. */
  type ErrorCode = c: nat | c in {2, 3, 85, 120, 125, 126, 127, 128, 129, 130} witness 2

  const ErrNotUniqueId: ErrorCode := 2
  const ErrUnknownId: ErrorCode := 3
  const ErrInvalidCondition: ErrorCode := 85
  const ErrUnknownActionType: ErrorCode := 120
  const ErrMissingAlarmName: ErrorCode := 125
  const ErrMissingSeverity: ErrorCode := 126
  const ErrRaiseAlarmMissingTarget: ErrorCode := 127
  const ErrMissingState: ErrorCode := 128
  const ErrSetStateMissingTarget: ErrorCode := 129
  const ErrCausalMissingEndpoint: ErrorCode := 130

  /** `ActionType` and `TemplateFields` names the validator looks up. */
  const RaiseAlarm: string := "raise_alarm"
  const SetState: string := "set_state"
  const AddCausalRelationship: string := "add_causal_relationship"
  const AlarmNameField: string := "alarm_name"
  const SeverityField: string := "severity"
  const StateField: string := "state"
  const TargetField: string := "target"
  const SourceField: string := "source"

  /** The comment of a result: the OK text, or the message of an error. */
  datatype Comment = Text(text: string) | ErrorMessage(code: ErrorCode)

  datatype Result = Result(description: string, isValid: bool, comment: Comment)

  datatype EntityDef = EntityDef(templateId: TemplateId)
  datatype RelationshipDef = RelationshipDef(templateId: TemplateId, source: TemplateId, target: TemplateId)
  /** An action: its type, its `properties` and its `action_target` dictionaries. */
  datatype ActionDef = ActionDef(actionType: string, properties: map<string, string>,
                                 actionTarget: map<string, TemplateId>)
  datatype Scenario = Scenario(condition: string, actions: seq<ActionDef>)
  datatype Definitions = Definitions(entities: seq<EntityDef>,
                                     relationships: Wrappers.Option<seq<RelationshipDef>>)
  datatype Template = Template(definitions: Definitions, scenarios: seq<Scenario>)

  // ---------------------------------------------------------------------
  // Result builders

  /** Every result has the fixed description; it is valid exactly when its
      comment is the OK text, and otherwise carries an error message. */
  predicate Canonical(r: Result)
  {
    && r.description == ResultDescription
    && (r.isValid <==> r.comment == Text(CorrectResultMessage))
    && (!r.isValid ==> r.comment.ErrorMessage?)
  }

  /** `_get_correct_result`. */
  function GetCorrectResult(): (r: Result)
    ensures r.isValid && Canonical(r)
  {
    Result(ResultDescription, true, Text(CorrectResultMessage))
  }

  /** `_get_fault_result(error_msgs[code])`. */
  function GetFaultResult(code: ErrorCode): (r: Result)
    ensures !r.isValid && Canonical(r) && r.comment == ErrorMessage(code)
  {
    Result(ResultDescription, false, ErrorMessage(code))
  }

  /** A fault result names its error code, so two faults are equal exactly
      when their codes are. */
  lemma FaultResultsDiffer(a: ErrorCode, b: ErrorCode)
    ensures GetFaultResult(a) == GetFaultResult(b) <==> a == b
    ensures GetFaultResult(a) != GetCorrectResult()
  {
  }

  // ---------------------------------------------------------------------
  // Single checks

  /** `_validate_template_id`: the id must be one of `ids`. */
  function ValidateTemplateId(ids: seq<TemplateId>, idToCheck: TemplateId): (r: Result)
    ensures Canonical(r)
    ensures r.isValid <==> idToCheck in ids
    ensures !r.isValid ==> r == GetFaultResult(ErrUnknownId)
  {
    if idToCheck !in ids then GetFaultResult(ErrUnknownId) else GetCorrectResult()
  }

  /** `validate_entity_definition`: the entity's id must not be taken yet. */
  function ValidateEntityDefinition(entity: EntityDef, entityIds: seq<TemplateId>): (r: Result)
    ensures Canonical(r)
    ensures r.isValid <==> entity.templateId !in entityIds
    ensures !r.isValid ==> r == GetFaultResult(ErrNotUniqueId)
  {
    if entity.templateId in entityIds then GetFaultResult(ErrNotUniqueId) else GetCorrectResult()
  }

  /** Python's `a or b` on two lists: `a` unless it is empty. */
  function ListOr(a: seq<TemplateId>, b: seq<TemplateId>): (r: seq<TemplateId>)
    ensures |a| > 0 ==> r == a
    ensures |a| == 0 ==> r == b
  {
    if |a| != 0 then a else b
  }

  /** What `validate_relationship` accepts. As written, the id is looked up in
      the entity ids, and in the relationship ids only when there are no
      entity ids at all. */
  predicate RelationshipWellFormed(rel: RelationshipDef, relationshipIds: seq<TemplateId>,
                                   entityIds: seq<TemplateId>)
  {
    && rel.templateId !in ListOr(entityIds, relationshipIds)
    && rel.target in entityIds
    && rel.source in entityIds
  }

  /** `validate_relationship`: id (error 2), then target, then source (error 3). */
  function ValidateRelationship(rel: RelationshipDef, relationshipIds: seq<TemplateId>,
                                entityIds: seq<TemplateId>): (r: Result)
    ensures Canonical(r)
    ensures r.isValid <==> RelationshipWellFormed(rel, relationshipIds, entityIds)
    ensures r == GetFaultResult(ErrNotUniqueId) <==> rel.templateId in ListOr(entityIds, relationshipIds)
    ensures r == GetFaultResult(ErrUnknownId) <==>
              rel.templateId !in ListOr(entityIds, relationshipIds)
              && (rel.target !in entityIds || rel.source !in entityIds)
  {
    if rel.templateId in ListOr(entityIds, relationshipIds) then GetFaultResult(ErrNotUniqueId)
    else
      var r := ValidateTemplateId(entityIds, rel.target);
      if r.isValid then ValidateTemplateId(entityIds, rel.source) else r
  }

  // ---------------------------------------------------------------------
  // Actions

  predicate RaiseAlarmWellFormed(action: ActionDef, entityIds: seq<TemplateId>)
  {
    && AlarmNameField in action.properties
    && SeverityField in action.properties
    && TargetField in action.actionTarget
    && action.actionTarget[TargetField] in entityIds
  }

  predicate SetStateWellFormed(action: ActionDef, entityIds: seq<TemplateId>)
  {
    && StateField in action.properties
    && TargetField in action.actionTarget
    && action.actionTarget[TargetField] in entityIds
  }

  predicate CausalRelationshipWellFormed(action: ActionDef, entityIds: seq<TemplateId>)
  {
    && TargetField in action.actionTarget
    && action.actionTarget[TargetField] in entityIds
    && SourceField in action.actionTarget
    && action.actionTarget[SourceField] in entityIds
  }

  /** What `validate_scenario_action` accepts: a known action type whose
      required fields are present and whose ids are declared entities. */
  predicate ActionWellFormed(action: ActionDef, entityIds: seq<TemplateId>)
  {
    if action.actionType == RaiseAlarm then RaiseAlarmWellFormed(action, entityIds)
    else if action.actionType == SetState then SetStateWellFormed(action, entityIds)
    else if action.actionType == AddCausalRelationship then CausalRelationshipWellFormed(action, entityIds)
    else false
  }

  /** `validate_raise_alarm_action`: each error code names the first thing
      missing, in the order alarm name, severity, target, declared target. */
  function ValidateRaiseAlarmAction(action: ActionDef, entityIds: seq<TemplateId>): (r: Result)
    ensures Canonical(r)
    ensures r.isValid <==> RaiseAlarmWellFormed(action, entityIds)
    ensures !r.isValid ==> r.comment.code in {125, 126, 127, 3}
    ensures r == GetFaultResult(ErrMissingAlarmName) <==> AlarmNameField !in action.properties
    ensures r == GetFaultResult(ErrMissingSeverity) <==>
              AlarmNameField in action.properties && SeverityField !in action.properties
    ensures r == GetFaultResult(ErrRaiseAlarmMissingTarget) <==>
              AlarmNameField in action.properties && SeverityField in action.properties
              && TargetField !in action.actionTarget
    ensures r == GetFaultResult(ErrUnknownId) <==>
              AlarmNameField in action.properties && SeverityField in action.properties
              && TargetField in action.actionTarget && action.actionTarget[TargetField] !in entityIds
  {
    if AlarmNameField !in action.properties then GetFaultResult(ErrMissingAlarmName)
    else if SeverityField !in action.properties then GetFaultResult(ErrMissingSeverity)
    else if TargetField !in action.actionTarget then GetFaultResult(ErrRaiseAlarmMissingTarget)
    else ValidateTemplateId(entityIds, action.actionTarget[TargetField])
  }

  /** `validate_set_state_action`: state, then target, then declared target. */
  function ValidateSetStateAction(action: ActionDef, entityIds: seq<TemplateId>): (r: Result)
    ensures Canonical(r)
    ensures r.isValid <==> SetStateWellFormed(action, entityIds)
    ensures !r.isValid ==> r.comment.code in {128, 129, 3}
    ensures r == GetFaultResult(ErrMissingState) <==> StateField !in action.properties
    ensures r == GetFaultResult(ErrSetStateMissingTarget) <==>
              StateField in action.properties && TargetField !in action.actionTarget
    ensures r == GetFaultResult(ErrUnknownId) <==>
              StateField in action.properties && TargetField in action.actionTarget
              && action.actionTarget[TargetField] !in entityIds
  {
    if StateField !in action.properties then GetFaultResult(ErrMissingState)
    else if TargetField !in action.actionTarget then GetFaultResult(ErrSetStateMissingTarget)
    else ValidateTemplateId(entityIds, action.actionTarget[TargetField])
  }

  /** `validate_add_causal_relationship_action`: target present (130) and
      declared (3), then source present (130) and declared (3). */
  function ValidateAddCausalRelationshipAction(action: ActionDef, entityIds: seq<TemplateId>): (r: Result)
    ensures Canonical(r)
    ensures r.isValid <==> CausalRelationshipWellFormed(action, entityIds)
    ensures !r.isValid ==> r.comment.code in {130, 3}
    ensures r == GetFaultResult(ErrCausalMissingEndpoint) <==>
              TargetField !in action.actionTarget
              || (action.actionTarget[TargetField] in entityIds && SourceField !in action.actionTarget)
    ensures r == GetFaultResult(ErrUnknownId) <==>
              TargetField in action.actionTarget
              && (action.actionTarget[TargetField] !in entityIds
                  || (SourceField in action.actionTarget && action.actionTarget[SourceField] !in entityIds))
  {
    if TargetField !in action.actionTarget then GetFaultResult(ErrCausalMissingEndpoint)
    else
      var r := ValidateTemplateId(entityIds, action.actionTarget[TargetField]);
      if !r.isValid then r
      else if SourceField !in action.actionTarget then GetFaultResult(ErrCausalMissingEndpoint)
      else ValidateTemplateId(entityIds, action.actionTarget[SourceField])
  }

  /** The codes an action can fail with. */
  const ActionErrorCodes: set<nat> := {3, 120, 125, 126, 127, 128, 129, 130}

  /** `validate_scenario_action`: dispatch on the action type; an unknown
      type is error 120. */
  function ValidateScenarioAction(action: ActionDef, entityIds: seq<TemplateId>): (r: Result)
    ensures Canonical(r)
    ensures r.isValid <==> ActionWellFormed(action, entityIds)
    ensures !r.isValid ==> r.comment.code in ActionErrorCodes
    ensures r == GetFaultResult(ErrUnknownActionType) <==>
              action.actionType !in {RaiseAlarm, SetState, AddCausalRelationship}
  {
    if action.actionType == RaiseAlarm then ValidateRaiseAlarmAction(action, entityIds)
    else if action.actionType == SetState then ValidateSetStateAction(action, entityIds)
    else if action.actionType == AddCausalRelationship then ValidateAddCausalRelationshipAction(action, entityIds)
    else GetFaultResult(ErrUnknownActionType)
  }

  // ---------------------------------------------------------------------
  // Stage specifications (what each loop computes)

  /** The template ids of a list of definitions, in declaration order. */
  function EntityIds(entities: seq<EntityDef>): (ids: seq<TemplateId>)
    ensures |ids| == |entities|
    ensures forall i :: 0 <= i < |entities| ==> ids[i] == entities[i].templateId
    decreases |entities|
  {
    if |entities| == 0 then [] else [entities[0].templateId] + EntityIds(entities[1..])
  }

  function RelationshipIds(rels: seq<RelationshipDef>): (ids: seq<TemplateId>)
    ensures |ids| == |rels|
    ensures forall i :: 0 <= i < |rels| ==> ids[i] == rels[i].templateId
    decreases |rels|
  {
    if |rels| == 0 then [] else [rels[0].templateId] + RelationshipIds(rels[1..])
  }

  /** The entities stage: each id is checked against the ids accumulated so
      far and then appended; the first failure stops the scan. */
  function EntitiesOutcome(entities: seq<EntityDef>, entityIds: seq<TemplateId>): (Result, seq<TemplateId>)
    decreases |entities|
  {
    if |entities| == 0 then (GetCorrectResult(), entityIds)
    else
      var r := ValidateEntityDefinition(entities[0], entityIds);
      if !r.isValid then (r, entityIds)
      else EntitiesOutcome(entities[1..], entityIds + [entities[0].templateId])
  }

  /** The relationships stage, in the same shape. */
  function RelationshipsOutcome(rels: seq<RelationshipDef>, relationshipIds: seq<TemplateId>,
                                entityIds: seq<TemplateId>): (Result, seq<TemplateId>)
    decreases |rels|
  {
    if |rels| == 0 then (GetCorrectResult(), relationshipIds)
    else
      var r := ValidateRelationship(rels[0], relationshipIds, entityIds);
      if !r.isValid then (r, relationshipIds)
      else RelationshipsOutcome(rels[1..], relationshipIds + [rels[0].templateId], entityIds)
  }

  /** The texts `validate_scenario_condition` blanks out, in order. */
  const ValuesToReplace: seq<string> := [" and ", " or ", " not ", "(", ")"]

  /** The `reduce` of line 143: replace each value in turn by a space. */
  function ReplaceEach(s: string, values: seq<string>): string
    requires forall i :: 0 <= i < |values| ==> |values[i]| > 0
    decreases |values|
  {
    if |values| == 0 then s else ReplaceEach(ReplaceAll(s, values[0], " "), values[1..])
  }

  /** The condition's variables as the validator sees them: what remains after
      blanking out the operators and parentheses, split at single spaces (so
      empty pieces are kept). */
  function ConditionTokens(condition: string): (tokens: seq<string>)
  {
    Split(ReplaceEach(condition, ValuesToReplace), ' ')
  }

  /** A condition token never contains a space or a parenthesis. */
  lemma ConditionTokensClean(condition: string)
    ensures forall t :: t in ConditionTokens(condition) ==> ' ' !in t && '(' !in t && ')' !in t
  {
    var c1 := ReplaceAll(condition, " and ", " ");
    var c2 := ReplaceAll(c1, " or ", " ");
    var c3 := ReplaceAll(c2, " not ", " ");
    var c4 := ReplaceAll(c3, "(", " ");
    var c5 := ReplaceAll(c4, ")", " ");
    assert ReplaceEach(condition, ValuesToReplace) == c5 by {
      assert ValuesToReplace[1..] == [" or ", " not ", "(", ")"];
      assert ValuesToReplace[1..][1..] == [" not ", "(", ")"];
      assert ValuesToReplace[1..][1..][1..] == ["(", ")"];
      assert ValuesToReplace[1..][1..][1..][1..] == [")"];
      assert ValuesToReplace[1..][1..][1..][1..][1..] == [];
    }
    ReplaceRemovesChar(c3, '(', " ");
    ReplaceKeepsAbsent(c4, ")", " ", '(');
    ReplaceRemovesChar(c4, ')', " ");
    var tokens := Split(c5, ' ');
    forall t | t in tokens ensures ' ' !in t && '(' !in t && ')' !in t {
      var i :| 0 <= i < |tokens| && tokens[i] == t;
      JoinSplit(c5, ' ');
      TokenInJoin(tokens, i, ' ');
    }
  }

  /** Every character of a piece is a character of the joined string. */
  lemma {:induction false} TokenInJoin(parts: seq<string>, i: nat, sep: char)
    requires i < |parts|
    ensures forall c :: c in parts[i] ==> c in Join(parts, sep)
    decreases |parts|
  {
    if |parts| > 1 {
      var tail := Join(parts[1..], sep);
      assert Join(parts, sep) == parts[0] + ([sep] + tail);
      if i > 0 {
        TokenInJoin(parts[1..], i - 1, sep);
        assert parts[1..][i - 1] == parts[i];
      }
    }
  }

  /** `validate_scenario_condition`: a condition that does not convert to DNF
      is error 85, before any id is looked at; otherwise every token must be
      one of `templateIds` (error 3). */
  function ConditionOutcome(condition: string, templateIds: seq<TemplateId>,
                            dnfOk: string -> bool): (r: Result)
    ensures Canonical(r)
    ensures r == GetFaultResult(ErrInvalidCondition) <==> !dnfOk(condition)
    ensures r.isValid <==>
              dnfOk(condition) && forall t :: t in ConditionTokens(condition) ==> t in templateIds
    ensures dnfOk(condition) && (exists t :: t in ConditionTokens(condition) && t !in templateIds) ==>
              r == GetFaultResult(ErrUnknownId)
  {
    if !dnfOk(condition) then GetFaultResult(ErrInvalidCondition)
    else if forall t :: t in ConditionTokens(condition) ==> t in templateIds then GetCorrectResult()
    else GetFaultResult(ErrUnknownId)
  }

  /** The actions of one scenario: the first failing action's result. */
  function ActionsOutcome(actions: seq<ActionDef>, entityIds: seq<TemplateId>): (r: Result)
    decreases |actions|
  {
    if |actions| == 0 then GetCorrectResult()
    else
      var r := ValidateScenarioAction(actions[0], entityIds);
      if !r.isValid then r else ActionsOutcome(actions[1..], entityIds)
  }

  /** One scenario: its condition against the relationship ids, then its
      actions against the entity ids. */
  function ScenarioOutcome(scenario: Scenario, entityIds: seq<TemplateId>,
                           relationshipIds: seq<TemplateId>, dnfOk: string -> bool): Result
  {
    var c := ConditionOutcome(scenario.condition, relationshipIds, dnfOk);
    if !c.isValid then c else ActionsOutcome(scenario.actions, entityIds)
  }

  /** The scenarios stage: the first failing scenario's result. */
  function ScenariosOutcome(scenarios: seq<Scenario>, entityIds: seq<TemplateId>,
                            relationshipIds: seq<TemplateId>, dnfOk: string -> bool): Result
    decreases |scenarios|
  {
    if |scenarios| == 0 then GetCorrectResult()
    else
      var r := ScenarioOutcome(scenarios[0], entityIds, relationshipIds, dnfOk);
      if !r.isValid then r else ScenariosOutcome(scenarios[1..], entityIds, relationshipIds, dnfOk)
  }

  /** `content_validation`: entities, then relationships when the section is
      present, then scenarios; the first failing stage decides. */
  function ContentOutcome(template: Template, dnfOk: string -> bool): Result
  {
    var (r1, entityIds) := EntitiesOutcome(template.definitions.entities, []);
    if !r1.isValid then r1
    else if template.definitions.relationships.Some? then
      var (r2, relationshipIds) := RelationshipsOutcome(template.definitions.relationships.value, [], entityIds);
      if !r2.isValid then r2
      else ScenariosOutcome(template.scenarios, entityIds, relationshipIds, dnfOk)
    else ScenariosOutcome(template.scenarios, entityIds, [], dnfOk)
  }

  // ---------------------------------------------------------------------
  // The validator's loops

  /** `validate_entities_definition`; `ids` is the caller's `entity_ids`
      list after the call. */
  method ValidateEntitiesDefinition(entities: seq<EntityDef>, entityIds: seq<TemplateId>)
    returns (r: Result, ids: seq<TemplateId>)
    ensures (r, ids) == EntitiesOutcome(entities, entityIds)
  {
    ids := entityIds;
    var i := 0;
    assert entities[i..] == entities;
    while i < |entities|
      invariant 0 <= i <= |entities|
      invariant EntitiesOutcome(entities[i..], ids) == EntitiesOutcome(entities, entityIds)
    {
      var entity := entities[i];
      var res := ValidateEntityDefinition(entity, ids);
      if !res.isValid {
        return res, ids;
      }
      ids := ids + [entity.templateId];
      assert entities[i..][1..] == entities[i + 1..];
      i := i + 1;
    }
    r := GetCorrectResult();
  }

  /** `validate_relationships_definitions`; `ids` is the caller's
      `relationship_ids` list after the call. */
  method ValidateRelationshipsDefinitions(rels: seq<RelationshipDef>, relationshipIds: seq<TemplateId>,
                                          entityIds: seq<TemplateId>)
    returns (r: Result, ids: seq<TemplateId>)
    ensures (r, ids) == RelationshipsOutcome(rels, relationshipIds, entityIds)
  {
    ids := relationshipIds;
    var i := 0;
    assert rels[i..] == rels;
    while i < |rels|
      invariant 0 <= i <= |rels|
      invariant RelationshipsOutcome(rels[i..], ids, entityIds) == RelationshipsOutcome(rels, relationshipIds, entityIds)
    {
      var rel := rels[i];
      var res := ValidateRelationship(rel, ids, entityIds);
      if !res.isValid {
        return res, ids;
      }
      ids := ids + [rel.templateId];
      assert rels[i..][1..] == rels[i + 1..];
      i := i + 1;
    }
    r := GetCorrectResult();
  }

  /** `validate_scenario_condition`, with the `reduce` and the token loop. */
  method ValidateScenarioCondition(condition: string, templateIds: seq<TemplateId>, dnfOk: string -> bool)
    returns (r: Result)
    ensures r == ConditionOutcome(condition, templateIds, dnfOk)
  {
    if !dnfOk(condition) {
      return GetFaultResult(ErrInvalidCondition);
    }
    var cond := condition;
    var k := 0;
    while k < |ValuesToReplace|
      invariant 0 <= k <= |ValuesToReplace|
      invariant ReplaceEach(cond, ValuesToReplace[k..]) == ReplaceEach(condition, ValuesToReplace)
    {
      assert ValuesToReplace[k..][1..] == ValuesToReplace[k + 1..];
      cond := ReplaceAll(cond, ValuesToReplace[k], " ");
      k := k + 1;
    }
    var tokens := Split(cond, ' ');
    assert tokens == ConditionTokens(condition);
    var i := 0;
    while i < |tokens|
      invariant 0 <= i <= |tokens|
      invariant forall j :: 0 <= j < i ==> tokens[j] in templateIds
    {
      var res := ValidateTemplateId(templateIds, tokens[i]);
      if !res.isValid {
        return res;
      }
      i := i + 1;
    }
    r := GetCorrectResult();
  }

  /** `validate_scenario_actions`. */
  method ValidateScenarioActions(actions: seq<ActionDef>, entityIds: seq<TemplateId>) returns (r: Result)
    ensures r == ActionsOutcome(actions, entityIds)
  {
    var i := 0;
    assert actions[i..] == actions;
    while i < |actions|
      invariant 0 <= i <= |actions|
      invariant ActionsOutcome(actions[i..], entityIds) == ActionsOutcome(actions, entityIds)
    {
      var res := ValidateScenarioAction(actions[i], entityIds);
      if !res.isValid {
        return res;
      }
      assert actions[i..][1..] == actions[i + 1..];
      i := i + 1;
    }
    r := GetCorrectResult();
  }

  /** `validate_scenarios`: conditions against the relationship ids, actions
      against the entity ids. */
  method ValidateScenarios(scenarios: seq<Scenario>, entityIds: seq<TemplateId>,
                           relationshipIds: seq<TemplateId>, dnfOk: string -> bool)
    returns (r: Result)
    ensures r == ScenariosOutcome(scenarios, entityIds, relationshipIds, dnfOk)
  {
    var i := 0;
    assert scenarios[i..] == scenarios;
    while i < |scenarios|
      invariant 0 <= i <= |scenarios|
      invariant ScenariosOutcome(scenarios[i..], entityIds, relationshipIds, dnfOk)
                == ScenariosOutcome(scenarios, entityIds, relationshipIds, dnfOk)
    {
      var scenario := scenarios[i];
      var res := ValidateScenarioCondition(scenario.condition, relationshipIds, dnfOk);
      if !res.isValid {
        return res;
      }
      res := ValidateScenarioActions(scenario.actions, entityIds);
      if !res.isValid {
        return res;
      }
      assert scenarios[i..][1..] == scenarios[i + 1..];
      i := i + 1;
    }
    r := GetCorrectResult();
  }

  /** `content_validation`. */
  method ContentValidation(template: Template, dnfOk: string -> bool) returns (r: Result)
    ensures r == ContentOutcome(template, dnfOk)
  {
    var definitions := template.definitions;
    var entityIds: seq<TemplateId>;
    r, entityIds := ValidateEntitiesDefinition(definitions.entities, []);
    var relationshipIds: seq<TemplateId> := [];
    if r.isValid && definitions.relationships.Some? {
      r, relationshipIds := ValidateRelationshipsDefinitions(definitions.relationships.value,
                                                             relationshipIds, entityIds);
    }
    if r.isValid {
      r := ValidateScenarios(template.scenarios, entityIds, relationshipIds, dnfOk);
    }
  }

  // ---------------------------------------------------------------------
  // What each stage accepts

  /** No entity reuses an id already taken or one declared before it. */
  predicate FreshEntities(entities: seq<EntityDef>, entityIds: seq<TemplateId>)
  {
    forall i :: 0 <= i < |entities| ==>
      && entities[i].templateId !in entityIds
      && forall j :: 0 <= j < i ==> entities[j].templateId != entities[i].templateId
  }

  /** Accepting the first entity moves its id into the taken ids. */
  lemma FreshEntitiesStep(entities: seq<EntityDef>, entityIds: seq<TemplateId>)
    requires |entities| > 0 && entities[0].templateId !in entityIds
    ensures FreshEntities(entities, entityIds)
            <==> FreshEntities(entities[1..], entityIds + [entities[0].templateId])
  {
    var rest := entities[1..];
    var ids := entityIds + [entities[0].templateId];
    if FreshEntities(entities, entityIds) {
      forall i | 0 <= i < |rest|
        ensures rest[i].templateId !in ids
        ensures forall j :: 0 <= j < i ==> rest[j].templateId != rest[i].templateId
      {
        assert rest[i] == entities[i + 1];
        assert forall j :: 0 <= j < i ==> rest[j] == entities[j + 1];
        assert entities[0].templateId != entities[i + 1].templateId;
      }
    }
    if FreshEntities(rest, ids) {
      forall i | 0 <= i < |entities|
        ensures entities[i].templateId !in entityIds
        ensures forall j :: 0 <= j < i ==> entities[j].templateId != entities[i].templateId
      {
        if i > 0 {
          assert entities[i] == rest[i - 1];
          assert rest[i - 1].templateId !in ids;
          forall j | 0 <= j < i ensures entities[j].templateId != entities[i].templateId {
            if j > 0 {
              assert entities[j] == rest[j - 1];
            } else {
              assert entities[0].templateId in ids;
            }
          }
        }
      }
    }
  }

  /** One step of the entities stage. */
  lemma EntitiesOutcomeStep(entities: seq<EntityDef>, entityIds: seq<TemplateId>)
    requires |entities| > 0
    ensures EntitiesOutcome(entities, entityIds)
            == if entities[0].templateId in entityIds then (GetFaultResult(ErrNotUniqueId), entityIds)
               else EntitiesOutcome(entities[1..], entityIds + [entities[0].templateId])
  {
  }

  /** The entities stage always yields a canonical result, and its only
      failure is a duplicate id (error 2). */
  lemma {:induction false} EntitiesOutcomeFaults(entities: seq<EntityDef>, entityIds: seq<TemplateId>)
    ensures Canonical(EntitiesOutcome(entities, entityIds).0)
    ensures !EntitiesOutcome(entities, entityIds).0.isValid ==>
              EntitiesOutcome(entities, entityIds).0 == GetFaultResult(ErrNotUniqueId)
    decreases |entities|
  {
    if |entities| > 0 {
      EntitiesOutcomeStep(entities, entityIds);
      if entities[0].templateId !in entityIds {
        EntitiesOutcomeFaults(entities[1..], entityIds + [entities[0].templateId]);
      }
    }
  }

  /** The entities stage succeeds exactly when every id is fresh. */
  lemma {:induction false} EntitiesOutcomeFresh(entities: seq<EntityDef>, entityIds: seq<TemplateId>)
    ensures EntitiesOutcome(entities, entityIds).0.isValid <==> FreshEntities(entities, entityIds)
    decreases |entities|
  {
    if |entities| > 0 {
      EntitiesOutcomeStep(entities, entityIds);
      if entities[0].templateId !in entityIds {
        EntitiesOutcomeFresh(entities[1..], entityIds + [entities[0].templateId]);
        FreshEntitiesStep(entities, entityIds);
      } else {
        assert !FreshEntities(entities, entityIds) by {
          assert entities[0].templateId in entityIds;
        }
      }
    }
  }

  /** After a successful entities stage the ids are the taken ids followed by
      all entity ids. */
  lemma {:induction false} EntitiesOutcomeIds(entities: seq<EntityDef>, entityIds: seq<TemplateId>)
    ensures EntitiesOutcome(entities, entityIds).0.isValid ==>
              EntitiesOutcome(entities, entityIds).1 == entityIds + EntityIds(entities)
    decreases |entities|
  {
    if |entities| == 0 {
      assert entityIds + EntityIds(entities) == entityIds;
    } else {
      var e := entities[0];
      EntitiesOutcomeStep(entities, entityIds);
      if e.templateId !in entityIds {
        var ids := entityIds + [e.templateId];
        EntitiesOutcomeIds(entities[1..], ids);
        assert entityIds + ([e.templateId] + EntityIds(entities[1..])) == ids + EntityIds(entities[1..]);
      }
    }
  }

  /** The entities stage succeeds exactly when every id is fresh, and then
      hands on the taken ids followed by all entity ids; any failure is a
      duplicate id (error 2). */
  lemma EntitiesOutcomeMeaning(entities: seq<EntityDef>, entityIds: seq<TemplateId>)
    ensures Canonical(EntitiesOutcome(entities, entityIds).0)
    ensures EntitiesOutcome(entities, entityIds).0.isValid <==> FreshEntities(entities, entityIds)
    ensures EntitiesOutcome(entities, entityIds).0.isValid ==>
              EntitiesOutcome(entities, entityIds).1 == entityIds + EntityIds(entities)
    ensures !EntitiesOutcome(entities, entityIds).0.isValid ==>
              EntitiesOutcome(entities, entityIds).0 == GetFaultResult(ErrNotUniqueId)
  {
    EntitiesOutcomeFaults(entities, entityIds);
    EntitiesOutcomeFresh(entities, entityIds);
    EntitiesOutcomeIds(entities, entityIds);
  }

  /** What the relationships stage demands of one relationship: its id is not
      an entity id, and both its ends are. */
  predicate RelationshipAccepted(rel: RelationshipDef, entityIds: seq<TemplateId>)
  {
    rel.templateId !in entityIds && rel.target in entityIds && rel.source in entityIds
  }

  /** The relationship ids seen so far never decide whether a relationship is
      accepted: with entity ids present they are not consulted at all, and
      without any an unknown target fails the relationship anyway. */
  lemma RelationshipIdsNeverDecide(rel: RelationshipDef, relationshipIds: seq<TemplateId>,
                                   entityIds: seq<TemplateId>)
    ensures ValidateRelationship(rel, relationshipIds, entityIds).isValid
            <==> RelationshipAccepted(rel, entityIds)
    ensures |entityIds| > 0 ==>
              ValidateRelationship(rel, relationshipIds, entityIds) == ValidateRelationship(rel, [], entityIds)
  {
  }

  /** One step of the relationships stage. */
  lemma RelationshipsOutcomeStep(rels: seq<RelationshipDef>, relationshipIds: seq<TemplateId>,
                                 entityIds: seq<TemplateId>)
    requires |rels| > 0
    ensures RelationshipsOutcome(rels, relationshipIds, entityIds)
            == if RelationshipAccepted(rels[0], entityIds)
               then RelationshipsOutcome(rels[1..], relationshipIds + [rels[0].templateId], entityIds)
               else (ValidateRelationship(rels[0], relationshipIds, entityIds), relationshipIds)
  {
    RelationshipIdsNeverDecide(rels[0], relationshipIds, entityIds);
  }

  /** Every relationship is accepted exactly when the first one and all the
      following ones are. */
  lemma AllAcceptedStep(rels: seq<RelationshipDef>, entityIds: seq<TemplateId>)
    requires |rels| > 0
    ensures (forall i :: 0 <= i < |rels| ==> RelationshipAccepted(rels[i], entityIds))
            <==> RelationshipAccepted(rels[0], entityIds)
                 && forall i :: 0 <= i < |rels[1..]| ==> RelationshipAccepted(rels[1..][i], entityIds)
  {
    assert forall i :: 0 <= i < |rels[1..]| ==> rels[1..][i] == rels[i + 1];
  }

  /** The relationships stage always yields a canonical result. */
  lemma {:induction false} RelationshipsOutcomeCanonical(rels: seq<RelationshipDef>,
                                                         relationshipIds: seq<TemplateId>,
                                                         entityIds: seq<TemplateId>)
    ensures Canonical(RelationshipsOutcome(rels, relationshipIds, entityIds).0)
    decreases |rels|
  {
    if |rels| > 0 {
      RelationshipsOutcomeStep(rels, relationshipIds, entityIds);
      if RelationshipAccepted(rels[0], entityIds) {
        RelationshipsOutcomeCanonical(rels[1..], relationshipIds + [rels[0].templateId], entityIds);
      }
    }
  }

  /** The relationships stage succeeds exactly when every relationship is
      accepted. */
  lemma {:induction false} RelationshipsOutcomeAccepted(rels: seq<RelationshipDef>,
                                                        relationshipIds: seq<TemplateId>,
                                                        entityIds: seq<TemplateId>)
    ensures RelationshipsOutcome(rels, relationshipIds, entityIds).0.isValid
            <==> forall i :: 0 <= i < |rels| ==> RelationshipAccepted(rels[i], entityIds)
    decreases |rels|
  {
    if |rels| > 0 {
      RelationshipsOutcomeStep(rels, relationshipIds, entityIds);
      RelationshipIdsNeverDecide(rels[0], relationshipIds, entityIds);
      AllAcceptedStep(rels, entityIds);
      if RelationshipAccepted(rels[0], entityIds) {
        RelationshipsOutcomeAccepted(rels[1..], relationshipIds + [rels[0].templateId], entityIds);
      }
    }
  }

  /** After a successful relationships stage the ids are the taken ids
      followed by all relationship ids. */
  lemma {:induction false} RelationshipsOutcomeIds(rels: seq<RelationshipDef>,
                                                   relationshipIds: seq<TemplateId>,
                                                   entityIds: seq<TemplateId>)
    ensures RelationshipsOutcome(rels, relationshipIds, entityIds).0.isValid ==>
              RelationshipsOutcome(rels, relationshipIds, entityIds).1 == relationshipIds + RelationshipIds(rels)
    decreases |rels|
  {
    if |rels| == 0 {
      assert relationshipIds + RelationshipIds(rels) == relationshipIds;
    } else {
      var rel := rels[0];
      RelationshipsOutcomeStep(rels, relationshipIds, entityIds);
      RelationshipIdsNeverDecide(rel, relationshipIds, entityIds);
      if RelationshipAccepted(rel, entityIds) {
        var ids := relationshipIds + [rel.templateId];
        RelationshipsOutcomeIds(rels[1..], ids, entityIds);
        assert relationshipIds + ([rel.templateId] + RelationshipIds(rels[1..])) == ids + RelationshipIds(rels[1..]);
      }
    }
  }

  /** The relationships stage succeeds exactly when every relationship is
      accepted, and then hands on all relationship ids. */
  lemma RelationshipsOutcomeMeaning(rels: seq<RelationshipDef>, relationshipIds: seq<TemplateId>,
                                    entityIds: seq<TemplateId>)
    ensures Canonical(RelationshipsOutcome(rels, relationshipIds, entityIds).0)
    ensures RelationshipsOutcome(rels, relationshipIds, entityIds).0.isValid
            <==> forall i :: 0 <= i < |rels| ==> RelationshipAccepted(rels[i], entityIds)
    ensures RelationshipsOutcome(rels, relationshipIds, entityIds).0.isValid ==>
              RelationshipsOutcome(rels, relationshipIds, entityIds).1 == relationshipIds + RelationshipIds(rels)
  {
    RelationshipsOutcomeCanonical(rels, relationshipIds, entityIds);
    RelationshipsOutcomeAccepted(rels, relationshipIds, entityIds);
    RelationshipsOutcomeIds(rels, relationshipIds, entityIds);
  }

  /** Error 2 from the relationships stage always means a relationship
      reuses an entity id, never another relationship's id. */
  lemma {:induction false} RelationshipsNotUniqueId(rels: seq<RelationshipDef>,
                                                    relationshipIds: seq<TemplateId>,
                                                    entityIds: seq<TemplateId>)
    requires |entityIds| > 0 || relationshipIds == []
    requires RelationshipsOutcome(rels, relationshipIds, entityIds).0 == GetFaultResult(ErrNotUniqueId)
    ensures exists i :: 0 <= i < |rels| && rels[i].templateId in entityIds
    decreases |rels|
  {
    var rel := rels[0];
    RelationshipsOutcomeStep(rels, relationshipIds, entityIds);
    RelationshipIdsNeverDecide(rel, relationshipIds, entityIds);
    if RelationshipAccepted(rel, entityIds) {
      var rest := rels[1..];
      var ids := relationshipIds + [rel.templateId];
      RelationshipsNotUniqueId(rest, ids, entityIds);
      var i :| 0 <= i < |rest| && rest[i].templateId in entityIds;
      assert rels[i + 1] == rest[i];
    } else {
      assert rel.templateId in ListOr(entityIds, relationshipIds);
    }
  }

  /** One step of the actions stage. */
  lemma ActionsOutcomeStep(actions: seq<ActionDef>, entityIds: seq<TemplateId>)
    requires |actions| > 0
    ensures ActionsOutcome(actions, entityIds)
            == if ActionWellFormed(actions[0], entityIds) then ActionsOutcome(actions[1..], entityIds)
               else ValidateScenarioAction(actions[0], entityIds)
  {
  }

  /** The actions stage always yields a canonical result, fails only with an
      action error code, and succeeds exactly when every action is well
      formed. */
  lemma {:induction false} ActionsOutcomeAccepted(actions: seq<ActionDef>, entityIds: seq<TemplateId>)
    ensures Canonical(ActionsOutcome(actions, entityIds))
    ensures !ActionsOutcome(actions, entityIds).isValid ==>
              ActionsOutcome(actions, entityIds).comment.code in ActionErrorCodes
    ensures ActionsOutcome(actions, entityIds).isValid
            <==> forall i :: 0 <= i < |actions| ==> ActionWellFormed(actions[i], entityIds)
    decreases |actions|
  {
    if |actions| > 0 {
      var rest := actions[1..];
      ActionsOutcomeStep(actions, entityIds);
      if ActionWellFormed(actions[0], entityIds) {
        ActionsOutcomeAccepted(rest, entityIds);
        assert forall i :: 0 <= i < |rest| ==> rest[i] == actions[i + 1];
        if ActionsOutcome(rest, entityIds).isValid {
          forall i | 0 <= i < |actions| ensures ActionWellFormed(actions[i], entityIds) {
            if i > 0 {
              assert actions[i] == rest[i - 1];
            }
          }
        }
      }
    }
  }

  /** A failing actions stage reports the first ill-formed action. */
  lemma {:induction false} ActionsOutcomeFirstFailure(actions: seq<ActionDef>, entityIds: seq<TemplateId>)
    ensures !ActionsOutcome(actions, entityIds).isValid ==>
              exists k :: 0 <= k < |actions|
                && ActionsOutcome(actions, entityIds) == ValidateScenarioAction(actions[k], entityIds)
                && forall j :: 0 <= j < k ==> ActionWellFormed(actions[j], entityIds)
    decreases |actions|
  {
    if |actions| > 0 {
      var rest := actions[1..];
      ActionsOutcomeStep(actions, entityIds);
      if ActionWellFormed(actions[0], entityIds) {
        ActionsOutcomeFirstFailure(rest, entityIds);
        if !ActionsOutcome(rest, entityIds).isValid {
          var k :| 0 <= k < |rest|
            && ActionsOutcome(rest, entityIds) == ValidateScenarioAction(rest[k], entityIds)
            && forall j :: 0 <= j < k ==> ActionWellFormed(rest[j], entityIds);
          forall j | 0 <= j < k + 1 ensures ActionWellFormed(actions[j], entityIds) {
            if j > 0 {
              assert actions[j] == rest[j - 1];
            }
          }
          assert actions[k + 1] == rest[k];
        }
      } else {
        assert ActionsOutcome(actions, entityIds) == ValidateScenarioAction(actions[0], entityIds);
      }
    }
  }

  /** The actions stage succeeds exactly when every action is well formed;
      otherwise its result is that of the first ill-formed action. */
  lemma ActionsOutcomeMeaning(actions: seq<ActionDef>, entityIds: seq<TemplateId>)
    ensures Canonical(ActionsOutcome(actions, entityIds))
    ensures ActionsOutcome(actions, entityIds).isValid
            <==> forall i :: 0 <= i < |actions| ==> ActionWellFormed(actions[i], entityIds)
    ensures !ActionsOutcome(actions, entityIds).isValid ==>
              exists k :: 0 <= k < |actions|
                && ActionsOutcome(actions, entityIds) == ValidateScenarioAction(actions[k], entityIds)
                && forall j :: 0 <= j < k ==> ActionWellFormed(actions[j], entityIds)
  {
    ActionsOutcomeAccepted(actions, entityIds);
    ActionsOutcomeFirstFailure(actions, entityIds);
  }

  /** The codes a scenario can fail with. */
  const ScenarioErrorCodes: set<nat> := ActionErrorCodes + {85}

  /** What `validate_scenarios` accepts of one scenario: a condition that
      converts to DNF and mentions only relationship ids, and well-formed
      actions on entity ids. */
  predicate ScenarioWellFormed(scenario: Scenario, entityIds: seq<TemplateId>,
                               relationshipIds: seq<TemplateId>, dnfOk: string -> bool)
  {
    && dnfOk(scenario.condition)
    && (forall t :: t in ConditionTokens(scenario.condition) ==> t in relationshipIds)
    && forall i :: 0 <= i < |scenario.actions| ==> ActionWellFormed(scenario.actions[i], entityIds)
  }

  /** One scenario passes exactly when it is well formed, and fails only
      with a condition or an action error: 85 when the condition does not
      convert, 3 when it converts but names an id that is not a relationship
      id. */
  lemma ScenarioOutcomeMeaning(scenario: Scenario, entityIds: seq<TemplateId>,
                               relationshipIds: seq<TemplateId>, dnfOk: string -> bool)
    ensures Canonical(ScenarioOutcome(scenario, entityIds, relationshipIds, dnfOk))
    ensures ScenarioOutcome(scenario, entityIds, relationshipIds, dnfOk).isValid
            <==> ScenarioWellFormed(scenario, entityIds, relationshipIds, dnfOk)
    ensures !ScenarioOutcome(scenario, entityIds, relationshipIds, dnfOk).isValid ==>
              ScenarioOutcome(scenario, entityIds, relationshipIds, dnfOk).comment.code in ScenarioErrorCodes
    ensures !dnfOk(scenario.condition) ==>
              ScenarioOutcome(scenario, entityIds, relationshipIds, dnfOk) == GetFaultResult(ErrInvalidCondition)
    ensures dnfOk(scenario.condition)
            && (exists t :: t in ConditionTokens(scenario.condition) && t !in relationshipIds) ==>
              ScenarioOutcome(scenario, entityIds, relationshipIds, dnfOk) == GetFaultResult(ErrUnknownId)
  {
    ActionsOutcomeAccepted(scenario.actions, entityIds);
  }

  /** One step of the scenarios stage. */
  lemma ScenariosOutcomeStep(scenarios: seq<Scenario>, entityIds: seq<TemplateId>,
                             relationshipIds: seq<TemplateId>, dnfOk: string -> bool)
    requires |scenarios| > 0
    ensures ScenariosOutcome(scenarios, entityIds, relationshipIds, dnfOk)
            == if ScenarioOutcome(scenarios[0], entityIds, relationshipIds, dnfOk).isValid
               then ScenariosOutcome(scenarios[1..], entityIds, relationshipIds, dnfOk)
               else ScenarioOutcome(scenarios[0], entityIds, relationshipIds, dnfOk)
  {
  }

  /** The scenarios stage always yields a canonical result and fails only
      with a condition or an action error. */
  lemma {:induction false} ScenariosOutcomeFaults(scenarios: seq<Scenario>, entityIds: seq<TemplateId>,
                                                  relationshipIds: seq<TemplateId>, dnfOk: string -> bool)
    ensures Canonical(ScenariosOutcome(scenarios, entityIds, relationshipIds, dnfOk))
    ensures !ScenariosOutcome(scenarios, entityIds, relationshipIds, dnfOk).isValid ==>
              ScenariosOutcome(scenarios, entityIds, relationshipIds, dnfOk).comment.code in ScenarioErrorCodes
    decreases |scenarios|
  {
    if |scenarios| > 0 {
      ScenariosOutcomeStep(scenarios, entityIds, relationshipIds, dnfOk);
      ScenarioOutcomeMeaning(scenarios[0], entityIds, relationshipIds, dnfOk);
      ScenariosOutcomeFaults(scenarios[1..], entityIds, relationshipIds, dnfOk);
    }
  }

  /** The scenarios stage succeeds exactly when every scenario is well formed. */
  lemma {:induction false} ScenariosOutcomeAccepted(scenarios: seq<Scenario>, entityIds: seq<TemplateId>,
                                                    relationshipIds: seq<TemplateId>, dnfOk: string -> bool)
    ensures ScenariosOutcome(scenarios, entityIds, relationshipIds, dnfOk).isValid
            <==> forall i :: 0 <= i < |scenarios| ==>
                   ScenarioWellFormed(scenarios[i], entityIds, relationshipIds, dnfOk)
    decreases |scenarios|
  {
    if |scenarios| > 0 {
      var s := scenarios[0];
      var rest := scenarios[1..];
      ScenariosOutcomeStep(scenarios, entityIds, relationshipIds, dnfOk);
      ScenarioOutcomeMeaning(s, entityIds, relationshipIds, dnfOk);
      if ScenarioWellFormed(s, entityIds, relationshipIds, dnfOk) {
        ScenariosOutcomeAccepted(rest, entityIds, relationshipIds, dnfOk);
        if forall i :: 0 <= i < |rest| ==> ScenarioWellFormed(rest[i], entityIds, relationshipIds, dnfOk) {
          forall i | 0 <= i < |scenarios|
            ensures ScenarioWellFormed(scenarios[i], entityIds, relationshipIds, dnfOk)
          {
            if i > 0 {
              assert scenarios[i] == rest[i - 1];
            }
          }
        } else {
          var i :| 0 <= i < |rest| && !ScenarioWellFormed(rest[i], entityIds, relationshipIds, dnfOk);
          assert scenarios[i + 1] == rest[i];
        }
      }
    }
  }

  /** The scenarios stage succeeds exactly when every scenario is well formed,
      and fails only with a condition or an action error. */
  lemma ScenariosOutcomeMeaning(scenarios: seq<Scenario>, entityIds: seq<TemplateId>,
                                relationshipIds: seq<TemplateId>, dnfOk: string -> bool)
    ensures Canonical(ScenariosOutcome(scenarios, entityIds, relationshipIds, dnfOk))
    ensures ScenariosOutcome(scenarios, entityIds, relationshipIds, dnfOk).isValid
            <==> forall i :: 0 <= i < |scenarios| ==>
                   ScenarioWellFormed(scenarios[i], entityIds, relationshipIds, dnfOk)
    ensures !ScenariosOutcome(scenarios, entityIds, relationshipIds, dnfOk).isValid ==>
              ScenariosOutcome(scenarios, entityIds, relationshipIds, dnfOk).comment.code in ScenarioErrorCodes
  {
    ScenariosOutcomeFaults(scenarios, entityIds, relationshipIds, dnfOk);
    ScenariosOutcomeAccepted(scenarios, entityIds, relationshipIds, dnfOk);
  }

  /** A template the content validator accepts: distinct entity ids;
      relationships (when present) between declared entities, with ids that
      are not entity ids; scenarios well formed against those ids. */
  predicate TemplateWellFormed(template: Template, dnfOk: string -> bool)
  {
    var entities := template.definitions.entities;
    var rels := template.definitions.relationships;
    var entityIds := EntityIds(entities);
    var relationshipIds := if rels.Some? then RelationshipIds(rels.value) else [];
    && (forall i, j :: 0 <= i < j < |entities| ==> entities[i].templateId != entities[j].templateId)
    && (rels.Some? ==> forall i :: 0 <= i < |rels.value| ==> RelationshipAccepted(rels.value[i], entityIds))
    && forall i :: 0 <= i < |template.scenarios| ==>
         ScenarioWellFormed(template.scenarios[i], entityIds, relationshipIds, dnfOk)
  }

  /** `content_validation` accepts exactly the well-formed templates, and its
      result always has the canonical shape. */
  lemma ContentOutcomeMeaning(template: Template, dnfOk: string -> bool)
    ensures Canonical(ContentOutcome(template, dnfOk))
    ensures ContentOutcome(template, dnfOk).isValid <==> TemplateWellFormed(template, dnfOk)
  {
    var entities := template.definitions.entities;
    var rels := template.definitions.relationships;
    EntitiesOutcomeMeaning(entities, []);
    var (r1, entityIds) := EntitiesOutcome(entities, []);
    assert FreshEntities(entities, []) <==>
           forall i, j :: 0 <= i < j < |entities| ==> entities[i].templateId != entities[j].templateId;
    if r1.isValid {
      assert entityIds == EntityIds(entities);
      if rels.Some? {
        RelationshipsOutcomeMeaning(rels.value, [], entityIds);
        var (r2, relationshipIds) := RelationshipsOutcome(rels.value, [], entityIds);
        if r2.isValid {
          assert relationshipIds == RelationshipIds(rels.value);
          ScenariosOutcomeMeaning(template.scenarios, entityIds, relationshipIds, dnfOk);
        }
      } else {
        ScenariosOutcomeMeaning(template.scenarios, entityIds, [], dnfOk);
      }
    }
  }

  /** Two entities with the same id make the template fail with error 2,
      whatever follows them. */
  lemma DuplicateEntityIdRejected(template: Template, dnfOk: string -> bool, i: nat, j: nat)
    requires i < j < |template.definitions.entities|
    requires template.definitions.entities[i].templateId == template.definitions.entities[j].templateId
    ensures ContentOutcome(template, dnfOk) == GetFaultResult(ErrNotUniqueId)
  {
    EntitiesOutcomeMeaning(template.definitions.entities, []);
  }

  /** Error 2 is reported only for an entity id declared twice or for a
      relationship whose id is an entity id: two relationships sharing an id
      are never reported. */
  lemma NotUniqueIdCauses(template: Template, dnfOk: string -> bool)
    requires ContentOutcome(template, dnfOk) == GetFaultResult(ErrNotUniqueId)
    ensures var entities := template.definitions.entities;
            var rels := template.definitions.relationships;
            || (exists i, j :: 0 <= i < j < |entities| && entities[i].templateId == entities[j].templateId)
            || (rels.Some? && exists k :: 0 <= k < |rels.value| && rels.value[k].templateId in EntityIds(entities))
  {
    var entities := template.definitions.entities;
    var rels := template.definitions.relationships;
    var entitiesStage := EntitiesOutcome(entities, []);
    EntitiesOutcomeMeaning(entities, []);
    if !entitiesStage.0.isValid {
      assert !FreshEntities(entities, []);
      return;
    }
    var entityIds := entitiesStage.1;
    assert entityIds == EntityIds(entities);
    var relationshipIds: seq<TemplateId> := [];
    if rels.Some? {
      var relationshipsStage := RelationshipsOutcome(rels.value, [], entityIds);
      if !relationshipsStage.0.isValid {
        assert relationshipsStage.0 == ContentOutcome(template, dnfOk);
        RelationshipsNotUniqueId(rels.value, [], entityIds);
        return;
      }
      relationshipIds := relationshipsStage.1;
    }
    assert ContentOutcome(template, dnfOk) == ScenariosOutcome(template.scenarios, entityIds, relationshipIds, dnfOk);
    ScenariosNeverNotUnique(template.scenarios, entityIds, relationshipIds, dnfOk);
  }

  /** The scenarios stage never reports error 2. */
  lemma ScenariosNeverNotUnique(scenarios: seq<Scenario>, entityIds: seq<TemplateId>,
                                relationshipIds: seq<TemplateId>, dnfOk: string -> bool)
    ensures ScenariosOutcome(scenarios, entityIds, relationshipIds, dnfOk) != GetFaultResult(ErrNotUniqueId)
  {
    ScenariosOutcomeMeaning(scenarios, entityIds, relationshipIds, dnfOk);
    assert 2 !in ScenarioErrorCodes;
  }

  /** As written, relationships may share an id: this template passes. */
  lemma SharedRelationshipIdAccepted(dnfOk: string -> bool)
    ensures ContentOutcome(Template(Definitions([EntityDef("a")],
                                                Wrappers.Some([RelationshipDef("r", "a", "a"),
                                                               RelationshipDef("r", "a", "a")])),
                                    []), dnfOk).isValid
  {
    var t := Template(Definitions([EntityDef("a")],
                                  Wrappers.Some([RelationshipDef("r", "a", "a"), RelationshipDef("r", "a", "a")])),
                      []);
    ContentOutcomeMeaning(t, dnfOk);
    assert EntityIds(t.definitions.entities) == ["a"];
  }

  /** The blanking of line 143, written out. */
  lemma ConditionReplacements(condition: string)
    ensures ReplaceEach(condition, ValuesToReplace)
            == ReplaceAll(ReplaceAll(ReplaceAll(ReplaceAll(ReplaceAll(condition, " and ", " "),
                 " or ", " "), " not ", " "), "(", " "), ")", " ")
  {
    assert ValuesToReplace[1..] == [" or ", " not ", "(", ")"];
    assert ValuesToReplace[1..][1..] == [" not ", "(", ")"];
    assert ValuesToReplace[1..][1..][1..] == ["(", ")"];
    assert ValuesToReplace[1..][1..][1..][1..] == [")"];
    assert ValuesToReplace[1..][1..][1..][1..][1..] == [];
  }

  /** A bare name is its own single token. */
  lemma {:induction false} BareNameTokens(name: string)
    requires ' ' !in name && '(' !in name && ')' !in name
    ensures ConditionTokens(name) == [name]
  {
    ConditionReplacements(name);
    ReplaceWithoutFirstChar(name, " and ", " ");
    ReplaceWithoutFirstChar(name, " or ", " ");
    ReplaceWithoutFirstChar(name, " not ", " ");
    ReplaceWithoutFirstChar(name, "(", " ");
    ReplaceWithoutFirstChar(name, ")", " ");
    SplitWithoutSeparator(name, ' ');
  }

  /** A condition that begins with a parenthesis has an empty first token, so
      unless the empty string is a declared id it fails with error 3 (or 85
      when it does not convert to DNF). */
  lemma {:induction false} OpeningParenthesisRejected(condition: string, templateIds: seq<TemplateId>,
                                                      dnfOk: string -> bool)
    requires |condition| > 0 && condition[0] == '('
    requires "" !in templateIds
    ensures ConditionTokens(condition)[0] == ""
    ensures ConditionOutcome(condition, templateIds, dnfOk)
            == GetFaultResult(if dnfOk(condition) then ErrUnknownId else ErrInvalidCondition)
  {
    ConditionReplacements(condition);
    var c1 := ReplaceAll(condition, " and ", " ");
    var c2 := ReplaceAll(c1, " or ", " ");
    var c3 := ReplaceAll(c2, " not ", " ");
    var c4 := ReplaceAll(c3, "(", " ");
    var c5 := ReplaceAll(c4, ")", " ");
    ReplaceKeepsFirst(condition, " and ", " ");
    ReplaceKeepsFirst(c1, " or ", " ");
    ReplaceKeepsFirst(c2, " not ", " ");
    assert c3[..1] == "(";
    assert c4[0] == ' ';
    ReplaceKeepsFirst(c4, ")", " ");
    assert c5[0] == ' ';
    assert Split(c5, ' ')[0] == "";
  }

  /** Conditions are checked against relationship ids only: a condition
      naming a declared entity fails when the template has no relationships. */
  lemma EntityConditionRejected(name: string, dnfOk: string -> bool)
    requires ' ' !in name && '(' !in name && ')' !in name
    requires dnfOk(name)
    ensures ContentOutcome(Template(Definitions([EntityDef(name)], Wrappers.None),
                                    [Scenario(name, [])]), dnfOk)
            == GetFaultResult(ErrUnknownId)
  {
    BareNameTokens(name);
    var entities := [EntityDef(name)];
    assert entities[1..] == [] && [] + [name] == [name];
    assert EntitiesOutcome(entities, []) == EntitiesOutcome([], [name]);
    var scenario := Scenario(name, []);
    assert ConditionOutcome(name, [], dnfOk) == GetFaultResult(ErrUnknownId) by {
      assert name in ConditionTokens(name) && name !in [];
    }
    assert ScenarioOutcome(scenario, [name], [], dnfOk) == GetFaultResult(ErrUnknownId);
  }
}

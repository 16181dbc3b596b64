/** lib/artifacts/cloudwatch.js: the rule and permission that let CloudWatch
    Events invoke the function, on an event pattern or on a schedule. */
module CloudWatch {
  import opened Wrappers
  import opened Json
  import opened Text
  import opened Utils
  import opened Model

  /** `functionType.match(/cloudwatchEvent|schedule/)`: an unanchored match, so
      any type containing either word passes. */
  predicate AllowedFunctionType(functionType: string) {
    Contains(functionType, "cloudwatchEvent") || Contains(functionType, "schedule")
  }

  /** `eventSources.<source>.<field>`; reading it fails when the source entry is
      missing or null. */
  function EventSetting(eventSources: Option<Dict>, source: string, field: string): Result<Option<Json>> {
    Member2(AsValue(eventSources), source, field)
  }

  /** `eventSources.<source>.<field>` can be read and is truthy. */
  predicate SettingPresent(eventSources: Option<Dict>, source: string, field: string) {
    EventSetting(eventSources, source, field).Ok? && Present(EventSetting(eventSources, source, field).value)
  }

  /** `validateCloudWatchEvent`: the type is required and must mention one of
      the two kinds; a pattern rule needs its `eventPattern`, a scheduled one its
      `expression`. */
  function ValidateCloudWatchEvent(functionType: string, eventSources: Option<Dict>): (r: Option<Error>)
    ensures r.None? <==>
      && functionType != "" && AllowedFunctionType(functionType)
      && (functionType == "cloudwatchEvent" ==> SettingPresent(eventSources, "cloudwatchEvent", "eventPattern"))
      && (functionType == "schedule" ==> SettingPresent(eventSources, "schedule", "expression"))
    ensures functionType == "" ==> r == Some(Failure("functionType property required for cloudwatch event"))
    ensures functionType != "" && !AllowedFunctionType(functionType) ==>
      r == Some(Failure("unknown functionType property: " + functionType))
    ensures functionType == "cloudwatchEvent" && EventSetting(eventSources, "cloudwatchEvent", "eventPattern").Err? ==>
      r == Some(EventSetting(eventSources, "cloudwatchEvent", "eventPattern").error)
    ensures functionType == "cloudwatchEvent" && EventSetting(eventSources, "cloudwatchEvent", "eventPattern").Ok?
            && !Present(EventSetting(eventSources, "cloudwatchEvent", "eventPattern").value) ==>
      r == Some(Failure("eventPattern required for cloudwatch event"))
    ensures functionType == "schedule" && EventSetting(eventSources, "schedule", "expression").Err? ==>
      r == Some(EventSetting(eventSources, "schedule", "expression").error)
    ensures functionType == "schedule" && EventSetting(eventSources, "schedule", "expression").Ok?
            && !Present(EventSetting(eventSources, "schedule", "expression").value) ==>
      r == Some(Failure("scheduled function expression cannot be undefined"))
  {
    if functionType == "" then Some(Failure("functionType property required for cloudwatch event"))
    else if !AllowedFunctionType(functionType) then
      Some(Failure("unknown functionType property: " + functionType))
    else if functionType == "cloudwatchEvent" then
      var pattern := EventSetting(eventSources, "cloudwatchEvent", "eventPattern");
      if pattern.Err? then Some(pattern.error)
      else if !Present(pattern.value) then Some(Failure("eventPattern required for cloudwatch event"))
      else None
    else if functionType == "schedule" then
      var expression := EventSetting(eventSources, "schedule", "expression");
      if expression.Err? then Some(expression.error)
      else if !Present(expression.value) then Some(Failure("scheduled function expression cannot be undefined"))
      else None
    else None
  }

  /** The only two types the compiler passes are both accepted by the match. */
  lemma {:induction false} KnownTypesAllowed()
    ensures AllowedFunctionType("cloudwatchEvent")
    ensures AllowedFunctionType("schedule")
  {
    assert OccursAt("cloudwatchEvent", "cloudwatchEvent", 0);
    ContainsOccurs("cloudwatchEvent", "cloudwatchEvent");
    assert OccursAt("schedule", "schedule", 0);
    ContainsOccurs("schedule", "schedule");
  }

  /** For the two known types, a missing `eventSources` or a missing entry for
      the type is a TypeError: the source reads a property through it. */
  lemma MissingEntryIsTypeError(functionType: string, eventSources: Option<Dict>)
    requires functionType == "cloudwatchEvent" || functionType == "schedule"
    ensures eventSources.None? ==>
      ValidateCloudWatchEvent(functionType, eventSources)
      == Some(TypeError("Cannot read property '" + functionType + "' of undefined"))
    ensures eventSources.Some? && eventSources.value.Get(functionType).None? ==>
      ValidateCloudWatchEvent(functionType, eventSources)
      == Some(TypeError("Cannot read property '"
                        + (if functionType == "cloudwatchEvent" then "eventPattern" else "expression")
                        + "' of undefined"))
  {
    KnownTypesAllowed();
  }

  /** The match is a substring test: any other type that merely contains a
      kind, such as `dailyschedule`, passes validation whatever the event
      sources hold. */
  lemma {:induction false} SubstringTypeAccepted(functionType: string, eventSources: Option<Dict>, i: int)
    requires functionType != "cloudwatchEvent" && functionType != "schedule"
    requires OccursAt(functionType, "cloudwatchEvent", i) || OccursAt(functionType, "schedule", i)
    ensures ValidateCloudWatchEvent(functionType, eventSources).None?
  {
    ContainsOccurs(functionType, "cloudwatchEvent");
    ContainsOccurs(functionType, "schedule");
  }

  /** `options.name + capitalizeFirst(functionType)` */
  function EventName(name: string, functionType: string): string {
    name + CapitalizeFirst(functionType)
  }

  /** The permission for CloudWatch Events to invoke the function on behalf of the rule */
  function PermissionResource(name: string, ruleKey: string): Json {
    JObj(Empty
      .With("Type", JStr("AWS::Lambda::Permission"))
      .With("Properties", JObj(Empty
        .With("FunctionName", GetAtt(name, "Arn"))
        .With("Action", JStr("lambda:InvokeFunction"))
        .With("Principal", JStr("events.amazonaws.com"))
        .With("SourceArn", GetAtt(ruleKey, "Arn")))))
  }

  /** The rule's properties before the pattern or schedule is set */
  function RuleProperties(name: string): Dict {
    Empty
      .With("RoleArn", RoleSelection)
      .With("State", JStr("ENABLED"))
      .With("Targets", JArr([JObj(Empty.With("Arn", GetAtt(name, "Arn")).With("Id", JStr(name)))]))
  }

  function RuleResource(properties: Dict): Json {
    JObj(Empty.With("Type", JStr("AWS::Events::Rule")).With("Properties", JObj(properties)))
  }

  /** The permission lets `events.amazonaws.com` invoke the function, scoped to the rule. */
  lemma PermissionParts(name: string, ruleKey: string)
    ensures Lookup(PermissionResource(name, ruleKey), "Type") == Some(JStr("AWS::Lambda::Permission"))
    ensures Prop(PermissionResource(name, ruleKey), "FunctionName") == Some(GetAtt(name, "Arn"))
    ensures Prop(PermissionResource(name, ruleKey), "Principal") == Some(JStr("events.amazonaws.com"))
    ensures Prop(PermissionResource(name, ruleKey), "SourceArn") == Some(GetAtt(ruleKey, "Arn"))
  {
  }

  /** Setting the pattern or the schedule on the rule keeps its role and its
      single target, whose Id is the function name; the property set is the
      only one of the two the rule has. */
  lemma RuleParts(name: string, key: string, other: string, value: Option<Json>)
    requires key in {"EventPattern", "ScheduleExpression"} && other in {"EventPattern", "ScheduleExpression"}
    requires key != other
    ensures
      var rule := RuleResource(RuleProperties(name).Assign(key, value));
      && Lookup(rule, "Type") == Some(JStr("AWS::Events::Rule"))
      && Prop(rule, "RoleArn") == Some(RoleSelection)
      && Prop(rule, "State") == Some(JStr("ENABLED"))
      && Prop(rule, "Targets") == Some(JArr([JObj(Empty.With("Arn", GetAtt(name, "Arn")).With("Id", JStr(name)))]))
      && Prop(rule, key) == value
      && Prop(rule, other).None?
  {
  }

  /** The property the rule gets: the pattern for `cloudwatchEvent`, the
      schedule expression for any other accepted type */
  function RuleSettingKey(functionType: string): string {
    if functionType == "cloudwatchEvent" then "EventPattern" else "ScheduleExpression"
  }

  /** The setting the rule's property is read from */
  function RuleSetting(options: Options, functionType: string): Result<Option<Json>> {
    if functionType == "cloudwatchEvent" then EventSetting(options.eventSources, "cloudwatchEvent", "eventPattern")
    else EventSetting(options.eventSources, "schedule", "expression")
  }

  /** The fragment `buildCloudwatchEvent` returns: the permission then the
      rule, keyed by the event name, the rule carrying the setting its type
      reads. */
  predicate EventBuilt(f: Fragment, options: Options, functionType: string) {
    var eventName := EventName(options.name, functionType);
    && f.sections.Keys == {Resources} && f.policies.None?
    && f.sections[Resources].keys == [eventName + "Permission", eventName + "Rule"]
    && f.sections[Resources].Get(eventName + "Permission") == Some(PermissionResource(options.name, eventName + "Rule"))
    && RuleSetting(options, functionType).Ok?
    && f.sections[Resources].Get(eventName + "Rule")
       == Some(RuleResource(RuleProperties(options.name).Assign(RuleSettingKey(functionType),
            RuleSetting(options, functionType).value)))
  }

  /** `buildCloudwatchEvent`: after validation, a permission and a rule keyed by
      the event name; the rule gets the pattern for `cloudwatchEvent` and the
      schedule expression for any other accepted type. */
  method BuildCloudwatchEvent(options: Options, functionType: string) returns (r: Result<Fragment>)
    ensures ValidateCloudWatchEvent(functionType, options.eventSources).Some? ==>
      r == Err(ValidateCloudWatchEvent(functionType, options.eventSources).value)
    ensures ValidateCloudWatchEvent(functionType, options.eventSources).None? ==>
      (r.Err? <==> RuleSetting(options, functionType).Err?)
    ensures ValidateCloudWatchEvent(functionType, options.eventSources).None? && RuleSetting(options, functionType).Err? ==>
      r == Err(RuleSetting(options, functionType).error)
    ensures functionType == "cloudwatchEvent" || functionType == "schedule" ==>
      (r.Ok? <==> ValidateCloudWatchEvent(functionType, options.eventSources).None?)
    ensures r.Ok? ==> EventBuilt(r.value, options, functionType)
  {
    var err := ValidateCloudWatchEvent(functionType, options.eventSources);
    if err.Some? {
      return Err(err.value);
    }
    var eventName := EventName(options.name, functionType);
    var properties := RuleProperties(options.name);
    if functionType == "cloudwatchEvent" {
      var pattern := EventSetting(options.eventSources, "cloudwatchEvent", "eventPattern");
      properties := properties.Assign("EventPattern", pattern.value);
    } else {
      var expression := EventSetting(options.eventSources, "schedule", "expression");
      if expression.Err? {
        return Err(expression.error);
      }
      properties := properties.Assign("ScheduleExpression", expression.value);
    }
    var resources := Empty
      .With(eventName + "Permission", PermissionResource(options.name, eventName + "Rule"))
      .With(eventName + "Rule", RuleResource(properties));
    assert eventName + "Permission" != eventName + "Rule" by {
      assert |eventName + "Permission"| != |eventName + "Rule"|;
    }
    return Ok(Fragment(map[Resources := resources], None));
  }
}

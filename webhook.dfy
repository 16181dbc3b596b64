/** lib/artifacts/webhook.js: an API Gateway endpoint in front of the function,
    with its method, deployment, API key and three API alarms. */
module Webhook {
  import opened Wrappers
  import opened Json
  import opened Text
  import opened Model
  import Sns

  /** `options.eventSources.webhook.<field>`; reading it fails when the webhook
      entry is missing or null. */
  function WebhookSetting(options: Options, field: string): Result<Option<Json>> {
    Member2(AsValue(options.eventSources), "webhook", field)
  }

  /** `/GET|HEAD|PUT|PATCH|OPTIONS|POST|DELETE/.test(method.toUpperCase())`:
      an unanchored match, so a method merely containing a verb passes. */
  predicate AllowedMethod(requested: string) {
    var m := ToUpper(requested);
    Contains(m, "GET") || Contains(m, "HEAD") || Contains(m, "PUT") || Contains(m, "PATCH")
    || Contains(m, "OPTIONS") || Contains(m, "POST") || Contains(m, "DELETE")
  }

  /** `validteWebhookOptions`: the method is required, must be a string (it is
      upper-cased) and must mention one of the HTTP verbs. */
  function ValidateWebhookOptions(options: Options): (r: Option<Error>)
    ensures r.None? <==>
      && WebhookSetting(options, "method").Ok?
      && Present(WebhookSetting(options, "method").value)
      && WebhookSetting(options, "method").value.value.JStr?
      && AllowedMethod(WebhookSetting(options, "method").value.value.s)
    ensures WebhookSetting(options, "method").Ok? && !Present(WebhookSetting(options, "method").value) ==>
      r == Some(Failure("Webhook function method not found"))
    ensures (WebhookSetting(options, "method").Ok? && Present(WebhookSetting(options, "method").value)
             && WebhookSetting(options, "method").value.value.JStr?
             && !AllowedMethod(WebhookSetting(options, "method").value.value.s)) ==>
      r == Some(Failure("Invalid client HTTP method specified: " + WebhookSetting(options, "method").value.value.s))
  {
    var requested := WebhookSetting(options, "method");
    if requested.Err? then Some(requested.error)
    else if !Present(requested.value) then Some(Failure("Webhook function method not found"))
    else if !requested.value.value.JStr? then
      Some(TypeError("options.eventSources.webhook.method.toUpperCase is not a function"))
    else if !AllowedMethod(requested.value.value.s) then
      Some(Failure("Invalid client HTTP method specified: " + requested.value.value.s))
    else None
  }

  /** The match is a substring test: any method whose upper-cased form
      contains a verb passes, such as `forget`, while `fetch` does not. */
  lemma {:induction false} SubstringMethodAccepted(requested: string, verb: string, i: int)
    requires verb in ["GET", "HEAD", "PUT", "PATCH", "OPTIONS", "POST", "DELETE"]
    requires OccursAt(ToUpper(requested), verb, i)
    ensures AllowedMethod(requested)
  {
    ContainsOccurs(ToUpper(requested), verb);
  }

  /** `getApiDeploymentName`: fixed in test mode, otherwise followed by random
      base-36 digits so that each build deploys afresh. */
  function GetApiDeploymentName(env: Env): (r: string)
    ensures |r| >= 13 && r[..13] == "ApiDeployment"
    ensures env.testMode ==> r == "ApiDeployment"
    ensures !env.testMode ==> r[13..] == env.deploymentRandom
  {
    if env.testMode then "ApiDeployment" else "ApiDeployment" + env.deploymentRandom
  }

  /** `{StatusCode: code, ResponseModels: {'application/json': 'Empty'}}` */
  function MethodResponse(code: string): Json {
    JObj(Empty
      .With("StatusCode", JStr(code))
      .With("ResponseModels", JObj(Empty.With("application/json", JStr("Empty")))))
  }

  const DefaultMethodResponses: Json := JArr([MethodResponse("200"), MethodResponse("500")])

  /** The method responses: the two defaults when none are given; given ones
      must form an array. */
  function MethodResponses(given: Option<Json>): (r: Result<Json>)
    ensures !Present(given) ==> r == Ok(DefaultMethodResponses)
    ensures Present(given) && given.value.JArr? ==> r == Ok(given.value)
    ensures Present(given) && !given.value.JArr? ==> r == Err(Failure("Webhook method responses is not an array"))
  {
    if !Present(given) then Ok(DefaultMethodResponses)
    else if !given.value.JArr? then Err(Failure("Webhook method responses is not an array"))
    else Ok(given.value)
  }

  function IntegrationUri(name: string): Json {
    Join("", [JStr("arn:aws:apigateway:"), RegionRef, JStr(":lambda:path/2015-03-31/functions/"),
              GetAtt(name, "Arn"), JStr("/invocations")])
  }

  const DefaultIntegrationResponses: Json := JArr([
    JObj(Empty.With("StatusCode", JStr("200"))),
    JObj(Empty.With("StatusCode", JStr("500")).With("SelectionPattern", JStr("^(?i)(error|exception).*")))])

  /** `o.k = o.k ? o.k : default` */
  function DefaultField(d: Dict, k: string, default: Json): Dict {
    d.Put(k, if Present(d.Get(k)) then d.Get(k).value else default)
  }

  /** The integration after the defaults are filled in: `{}` when none is given;
      an integration that is not an object ignores the assignments. */
  function Integration(given: Option<Json>, name: string): Json {
    var base := if Present(given) then given.value else JObj(Empty);
    if base.JObj? then
      JObj(DefaultField(DefaultField(DefaultField(DefaultField(base.obj,
        "Type", JStr("AWS")),
        "IntegrationHttpMethod", JStr("POST")),
        "Uri", IntegrationUri(name)),
        "IntegrationResponses", DefaultIntegrationResponses))
    else base
  }

  /** Fields the defaults fill */
  predicate IntegrationField(k: string) {
    k == "Type" || k == "IntegrationHttpMethod" || k == "Uri" || k == "IntegrationResponses"
  }

  /** A supplied integration keeps its truthy fields and every extra field; only
      missing or falsy fields get their defaults. */
  lemma IntegrationDefaults(d: Dict, name: string)
    ensures
      var i := Integration(Some(JObj(d)), name);
      && (Present(d.Get("Type")) ==> Lookup(i, "Type") == d.Get("Type"))
      && (!Present(d.Get("Type")) ==> Lookup(i, "Type") == Some(JStr("AWS")))
      && (Present(d.Get("IntegrationHttpMethod")) ==> Lookup(i, "IntegrationHttpMethod") == d.Get("IntegrationHttpMethod"))
      && (!Present(d.Get("IntegrationHttpMethod")) ==> Lookup(i, "IntegrationHttpMethod") == Some(JStr("POST")))
      && (Present(d.Get("Uri")) ==> Lookup(i, "Uri") == d.Get("Uri"))
      && (!Present(d.Get("Uri")) ==> Lookup(i, "Uri") == Some(IntegrationUri(name)))
      && (Present(d.Get("IntegrationResponses")) ==> Lookup(i, "IntegrationResponses") == d.Get("IntegrationResponses"))
      && (!Present(d.Get("IntegrationResponses")) ==> Lookup(i, "IntegrationResponses") == Some(DefaultIntegrationResponses))
    ensures forall k :: !IntegrationField(k) ==> Lookup(Integration(Some(JObj(d)), name), k) == d.Get(k)
  {
  }

  /** Without an integration, exactly the four defaults, in this order. */
  lemma DefaultIntegration(name: string)
    ensures
      var i := Integration(None, name);
      && i.JObj?
      && i.obj.keys == ["Type", "IntegrationHttpMethod", "Uri", "IntegrationResponses"]
      && i.obj.Get("Type") == Some(JStr("AWS"))
      && i.obj.Get("IntegrationHttpMethod") == Some(JStr("POST"))
      && i.obj.Get("Uri") == Some(IntegrationUri(name))
      && i.obj.Get("IntegrationResponses") == Some(DefaultIntegrationResponses)
  {
  }

  /** The API Gateway resource: the path is the lower-cased function name. */
  function PathResource(name: string): Json {
    var webhookName := name + "Webhook";
    JObj(Empty
      .With("Type", JStr("AWS::ApiGateway::Resource"))
      .With("Properties", JObj(Empty
        .With("ParentId", GetAtt(webhookName + "ApiGateway", "RootResourceId"))
        .With("RestApiId", Ref(webhookName + "ApiGateway"))
        .With("PathPart", JStr(ToLower(name))))))
  }

  function MethodResource(name: string, httpMethod: string, responses: Json, integration: Json): Json {
    var webhookName := name + "Webhook";
    JObj(Empty
      .With("Type", JStr("AWS::ApiGateway::Method"))
      .With("Properties", JObj(Empty
        .With("RestApiId", Ref(webhookName + "ApiGateway"))
        .With("ResourceId", Ref(webhookName + "Resource"))
        .With("AuthorizationType", JStr("None"))
        .With("HttpMethod", JStr(httpMethod))
        .With("MethodResponses", responses)
        .With("Integration", integration))))
  }

  /** `resource.Properties.k = v` on a resource built here */
  function SetProperty(resource: Json, k: string, v: Json): Json
    requires resource.JObj? && Props(resource).Some? && Props(resource).value.JObj?
  {
    JObj(resource.obj.Put("Properties", JObj(Props(resource).value.obj.Put(k, v))))
  }

  function InvokePermission(name: string): Json {
    var webhookName := name + "Webhook";
    JObj(Empty
      .With("Type", JStr("AWS::Lambda::Permission"))
      .With("Properties", JObj(Empty
        .With("FunctionName", GetAtt(name, "Arn"))
        .With("Action", JStr("lambda:InvokeFunction"))
        .With("Principal", JStr("apigateway.amazonaws.com"))
        .With("SourceArn", Join("", [JStr("arn:aws:execute-api:"), RegionRef, JStr(":"), AccountIdRef, JStr(":"),
                                     Ref(webhookName + "ApiGateway"), JStr("/*")])))))
  }

  const RestApi: Json :=
    JObj(Empty
      .With("Type", JStr("AWS::ApiGateway::RestApi"))
      .With("Properties", JObj(Empty.With("Name", StackNameRef).With("FailOnWarnings", JStr("true")))))

  function ApiKey(name: string, deploymentKey: string): Json {
    JObj(Empty
      .With("Type", JStr("AWS::ApiGateway::ApiKey"))
      .With("DependsOn", JStr(deploymentKey))
      .With("Properties", JObj(Empty
        .With("Name", StackNameRef)
        .With("Enabled", JStr("true"))
        .With("StageKeys", JArr([JObj(Empty
          .With("RestApiId", Ref(name + "WebhookApiGateway"))
          .With("StageName", JStr("prod")))])))))
  }

  function Deployment(name: string): Json {
    JObj(Empty
      .With("Type", JStr("AWS::ApiGateway::Deployment"))
      .With("DependsOn", JStr(name + "WebhookMethod"))
      .With("Properties", JObj(Empty
        .With("RestApiId", Ref(name + "WebhookApiGateway"))
        .With("StageName", JStr("prod")))))
  }

  /** One of the three API alarms; they differ in threshold, anchor and metric. */
  function ApiAlarm(threshold: string, alarmName: string, metric: string): Json {
    JObj(Empty
      .With("Type", JStr("AWS::CloudWatch::Alarm"))
      .With("Properties", JObj(Empty
        .With("EvaluationPeriods", JStr("5"))
        .With("Statistic", JStr("Sum"))
        .With("Threshold", JStr(threshold))
        .With("AlarmDescription", JStr("https://github.com/mapbox/lambda-cfn/blob/master/alarms.md#" + alarmName))
        .With("Period", JStr("60"))
        .With("AlarmActions", JArr([Ref("ServiceAlarmSNSTopic")]))
        .With("Namespace", JStr("AWS/ApiGateway"))
        .With("Dimensions", JArr([JObj(Empty.With("Name", JStr("APIName")).With("Value", StackNameRef))]))
        .With("ComparisonOperator", JStr("GreaterThanThreshold"))
        .With("MetricName", JStr(metric)))))
  }

  function Endpoint(name: string): Json {
    Join("", [JStr("https://"), Ref(name + "WebhookApiGateway"), JStr(".execute-api."), RegionRef,
              JStr(".amazonaws.com/prod/"), JStr(ToLower(name))])
  }

  /** The resource keys, in the order they are assigned: `<name>Webhook` plus a suffix */
  function WebhookResourceKeys(name: string, deployment: string): (ks: seq<string>)
    ensures |ks| == 9 && ks[1] == name + "Webhook" + "Method" && ks[2] == name + "Webhook" + "Permission"
  {
    var webhookName := name + "Webhook";
    [ webhookName + "Resource", webhookName + "Method", webhookName + "Permission",
      webhookName + "ApiGateway", webhookName + "ApiKey", webhookName + deployment,
      webhookName + "ApiLatencyAlarm", webhookName + "Api4xxAlarm", webhookName + "ApiCountAlarm" ]
  }

  /** The suffixes never coincide: those of the same length differ in their
      first or fourth character. */
  lemma {:induction false} WebhookResourceKeysDistinct(name: string, env: Env)
    ensures NoDuplicates(WebhookResourceKeys(name, GetApiDeploymentName(env)))
  {
    var webhookName := name + "Webhook";
    var deployment := GetApiDeploymentName(env);
    var suffixes := ["Resource", "Method", "Permission", "ApiGateway", "ApiKey", deployment,
                     "ApiLatencyAlarm", "Api4xxAlarm", "ApiCountAlarm"];
    var marks := ['R', 'M', 'P', 'G', 'K', 'D', 'L', '4', 'C'];
    forall i | 0 <= i < |suffixes|
      ensures |suffixes[i]| > 3 && (suffixes[i][0] == marks[i] || suffixes[i][3] == marks[i])
      ensures suffixes[i][0] == 'A' ==> suffixes[i][3] == marks[i]
    {
      if i == 5 {
        assert suffixes[i][..13] == "ApiDeployment";
        assert suffixes[i][0] == "ApiDeployment"[0] && suffixes[i][3] == "ApiDeployment"[3];
      }
    }
    var keys := WebhookResourceKeys(name, deployment);
    forall i, j | 0 <= i < j < |keys| ensures keys[i] != keys[j] {
      assert keys[i] == webhookName + suffixes[i] && keys[j] == webhookName + suffixes[j];
      assert suffixes[i][0] != suffixes[j][0] || suffixes[i][3] != suffixes[j][3];
      PrefixDistinct(webhookName, suffixes[i], suffixes[j]);
    }
  }

  /** Validation, then the method responses: the builder's error, if any */
  function WebhookError(options: Options): Option<Error> {
    var invalid := ValidateWebhookOptions(options);
    if invalid.Some? then invalid
    else
      var responses := MethodResponses(WebhookSetting(options, "methodResponses").value);
      if responses.Err? then Some(responses.error) else None
  }

  /** `options.eventSources.webhook.apiKey` is truthy. */
  predicate ApiKeyRequested(options: Options) {
    var apiKey := WebhookSetting(options, "apiKey");
    apiKey.Ok? && Present(apiKey.value)
  }

  /** The method resource as validated, with the defaults filled in */
  function BuiltMethod(options: Options): Json
    requires WebhookError(options).None?
  {
    var requested := WebhookSetting(options, "method").value.value.s;
    var responses := MethodResponses(WebhookSetting(options, "methodResponses").value).value;
    var integration := Integration(WebhookSetting(options, "integration").value, options.name);
    MethodResource(options.name, ToUpper(requested), responses, integration)
  }

  /** The method requires an API key exactly when one is requested, and its
      HTTP method is the upper-cased one given. */
  lemma MethodParts(options: Options)
    requires WebhookError(options).None?
    ensures
      var m := FinalMethod(options);
      && Lookup(m, "Type") == Some(JStr("AWS::ApiGateway::Method"))
      && (Prop(m, "ApiKeyRequired") == Some(JStr("true")) <==> ApiKeyRequested(options))
      && Prop(m, "HttpMethod") == Some(JStr(ToUpper(WebhookSetting(options, "method").value.value.s)))
      && Prop(m, "Integration") == Some(Integration(WebhookSetting(options, "integration").value, options.name))
  {
    var requested := WebhookSetting(options, "method").value.value.s;
    var responses := MethodResponses(WebhookSetting(options, "methodResponses").value).value;
    var integration := Integration(WebhookSetting(options, "integration").value, options.name);
    MethodResourceParts(options.name, ToUpper(requested), responses, integration);
    if ApiKeyRequested(options) {
      SetPropertyParts(BuiltMethod(options), "ApiKeyRequired", JStr("true"));
    }
  }

  /** The method resource's type, and the properties it is given */
  lemma MethodResourceParts(name: string, httpMethod: string, responses: Json, integration: Json)
    ensures
      var m := MethodResource(name, httpMethod, responses, integration);
      && Lookup(m, "Type") == Some(JStr("AWS::ApiGateway::Method"))
      && m.JObj? && Props(m).Some? && Props(m).value.JObj?
      && Prop(m, "ApiKeyRequired").None?
      && Prop(m, "HttpMethod") == Some(JStr(httpMethod))
      && Prop(m, "Integration") == Some(integration)
  {
  }

  /** Setting a property changes that property alone. */
  lemma SetPropertyParts(resource: Json, k: string, v: Json)
    requires resource.JObj? && Props(resource).Some? && Props(resource).value.JObj?
    ensures Lookup(SetProperty(resource, k, v), "Type") == Lookup(resource, "Type")
    ensures Prop(SetProperty(resource, k, v), k) == Some(v)
    ensures forall k' :: k' != k ==> Prop(SetProperty(resource, k, v), k') == Prop(resource, k')
  {
  }

  /** The values assigned under `WebhookResourceKeys`, in the same order, for
      a given method resource */
  function ResourceValues(name: string, methodResource: Json, deployment: string): (vs: seq<Json>)
    ensures |vs| == 9 && vs[1] == methodResource && vs[2] == InvokePermission(name)
  {
    [ PathResource(name), methodResource, InvokePermission(name), RestApi,
      ApiKey(name, name + "Webhook" + deployment), Deployment(name),
      ApiAlarm("4", "ApiLatencyAlarm", "Latency"), ApiAlarm("100", "Api4xxAlarm", "4xxError"),
      ApiAlarm("10000", "ApiCountAlarm", "Count") ]
  }

  /** The method once the API key requirement has been set on it, if requested */
  function FinalMethod(options: Options): Json
    requires WebhookError(options).None?
  {
    if ApiKeyRequested(options) then SetProperty(BuiltMethod(options), "ApiKeyRequired", JStr("true"))
    else BuiltMethod(options)
  }

  /** The value each resource key holds at the end: the method is the only
      one updated after its assignment. */
  function FinalResourceValues(options: Options, env: Env): seq<Json>
    requires WebhookError(options).None?
  {
    ResourceValues(options.name, BuiltMethod(options), GetApiDeploymentName(env))[1 := FinalMethod(options)]
  }

  /** The resources: the nine entries in assignment order, then the permission
      (key 2) assigned a second time, then the method (key 1) updated for an
      API key. */
  function WebhookResources(options: Options, env: Env): Dict
    requires WebhookError(options).None?
  {
    var deployment := GetApiDeploymentName(env);
    var ks := WebhookResourceKeys(options.name, deployment);
    var vs := ResourceValues(options.name, BuiltMethod(options), deployment);
    var entries := Literal(ks, vs, 9).Put(ks[2], vs[2]);
    if ApiKeyRequested(options) then entries.Put(ks[1], FinalMethod(options)) else entries
  }

  /** The endpoint output, and the API key output when one is requested */
  function WebhookOutputs(options: Options): Dict {
    var webhookName := options.name + "Webhook";
    var endpoint := Empty.With(webhookName + "APIEndpoint", Sns.Output(Endpoint(options.name)));
    if ApiKeyRequested(options) then endpoint.With(webhookName + "ApiKey", Sns.Output(Ref(webhookName + "ApiKey")))
    else endpoint
  }

  /** Assigning an entry of a literal its own value again changes nothing;
      assigning another value replaces it in place. */
  lemma Reassigned(ks: seq<string>, vs: seq<Json>, i: nat, j: nat, v: Json)
    requires |ks| == |vs| && NoDuplicates(ks) && i < |ks| && j < |ks|
    ensures Literal(ks, vs, |ks|).Put(ks[i], vs[i]) == Literal(ks, vs, |ks|)
    ensures Literal(ks, vs, |ks|).Put(ks[i], vs[i]).Put(ks[j], v) == Literal(ks, vs[j := v], |ks|)
  {
    LiteralPut(ks, vs, |ks|, i, vs[i]);
    assert vs[i := vs[i]] == vs;
    LiteralPut(ks, vs, |ks|, j, v);
  }

  /** The resources are exactly the nine keys, none repeated whatever the name,
      each holding its final value: the second permission assignment changes
      nothing, and only the method is updated for an API key. */
  lemma WebhookResourcesParts(options: Options, env: Env)
    requires WebhookError(options).None?
    ensures
      var ks := WebhookResourceKeys(options.name, GetApiDeploymentName(env));
      var final := FinalResourceValues(options, env);
      var resources := WebhookResources(options, env);
      && resources == Literal(ks, final, 9)
      && resources.keys == ks
      && resources.Valid()
      && forall i :: 0 <= i < |ks| ==> resources.Get(ks[i]) == Some(final[i])
  {
    var deployment := GetApiDeploymentName(env);
    var ks := WebhookResourceKeys(options.name, deployment);
    var vs := ResourceValues(options.name, BuiltMethod(options), deployment);
    var final := FinalResourceValues(options, env);
    WebhookResourceKeysDistinct(options.name, env);
    WebhookResourcesLiteral(options, env);
    LiteralComplete(ks, final);
  }

  /** The two later assignments leave a literal of the final values. */
  lemma WebhookResourcesLiteral(options: Options, env: Env)
    requires WebhookError(options).None?
    ensures WebhookResources(options, env)
      == Literal(WebhookResourceKeys(options.name, GetApiDeploymentName(env)), FinalResourceValues(options, env), 9)
  {
    var deployment := GetApiDeploymentName(env);
    var ks := WebhookResourceKeys(options.name, deployment);
    var vs := ResourceValues(options.name, BuiltMethod(options), deployment);
    WebhookResourceKeysDistinct(options.name, env);
    Reassigned(ks, vs, 2, 1, FinalMethod(options));
    if !ApiKeyRequested(options) {
      assert FinalResourceValues(options, env) == vs;
    }
  }

  /** The API key waits for the deployment, and the deployment for the method. */
  lemma DeploymentOrder(name: string, methodResource: Json, deployment: string)
    ensures Lookup(ResourceValues(name, methodResource, deployment)[4], "DependsOn")
      == Some(JStr(WebhookResourceKeys(name, deployment)[5]))
    ensures Lookup(ResourceValues(name, methodResource, deployment)[5], "DependsOn")
      == Some(JStr(WebhookResourceKeys(name, deployment)[1]))
    ensures WebhookResourceKeys(name, deployment)[1] == name + "WebhookMethod"
  {
    assert name + "WebhookMethod" == name + "Webhook" + "Method";
  }

  /** Without an API key only the endpoint is output; with one, also the key. */
  lemma WebhookOutputsParts(options: Options)
    ensures
      var outputs := WebhookOutputs(options);
      var webhookName := options.name + "Webhook";
      && outputs.keys == [webhookName + "APIEndpoint"] + (if ApiKeyRequested(options) then [webhookName + "ApiKey"] else [])
      && outputs.Valid()
      && outputs.Get(webhookName + "APIEndpoint") == Some(Sns.Output(Endpoint(options.name)))
      && (ApiKeyRequested(options) ==> outputs.Get(webhookName + "ApiKey") == Some(Sns.Output(Ref(webhookName + "ApiKey"))))
  {
    var webhookName := options.name + "Webhook";
    assert |webhookName + "ApiKey"| < |webhookName + "APIEndpoint"|;
  }

  /** Nine entries written one by one form the literal of the nine. */
  lemma LiteralOfNine(ks: seq<string>, vs: seq<Json>)
    requires |ks| == |vs| == 9
    ensures Literal(ks, vs, 9)
      == Empty.With(ks[0], vs[0]).With(ks[1], vs[1]).With(ks[2], vs[2]).With(ks[3], vs[3]).With(ks[4], vs[4])
         .With(ks[5], vs[5]).With(ks[6], vs[6]).With(ks[7], vs[7]).With(ks[8], vs[8])
  {
    var d1 := Empty.With(ks[0], vs[0]);
    var d3 := d1.With(ks[1], vs[1]).With(ks[2], vs[2]);
    var d5 := d3.With(ks[3], vs[3]).With(ks[4], vs[4]);
    var d7 := d5.With(ks[5], vs[5]).With(ks[6], vs[6]);
    assert Literal(ks, vs, 1) == d1;
    assert Literal(ks, vs, 3) == d3;
    assert Literal(ks, vs, 5) == d5;
    assert Literal(ks, vs, 7) == d7;
  }

  /** `buildWebhookEvent`: validation, then the resources in assignment order,
      the endpoint output, and the API key requirement and output when an API
      key is asked for. */
  method BuildWebhookEvent(options: Options, env: Env) returns (r: Result<Fragment>)
    ensures r.Err? <==> WebhookError(options).Some?
    ensures r.Err? ==> r.error == WebhookError(options).value
    ensures r.Ok? ==>
      r.value == Fragment(map[Resources := WebhookResources(options, env), Outputs := WebhookOutputs(options)], None)
  {
    var webhookName := options.name + "Webhook";
    var outputs := Empty;
    var invalid := ValidateWebhookOptions(options);
    if invalid.Some? {
      return Err(invalid.value);
    }
    // The method is present once validation has passed.
    var requested := WebhookSetting(options, "method").value.value.s;
    var responses := MethodResponses(WebhookSetting(options, "methodResponses").value);
    if responses.Err? {
      return Err(responses.error);
    }
    var integration := Integration(WebhookSetting(options, "integration").value, options.name);
    var methodResource := MethodResource(options.name, ToUpper(requested), responses.value, integration);
    MethodResourceParts(options.name, ToUpper(requested), responses.value, integration);
    var deployment := GetApiDeploymentName(env);
    var resources := AssignResources(options.name, methodResource, deployment);
    assert methodResource == BuiltMethod(options);
    resources := resources.Put(webhookName + "Permission", InvokePermission(options.name));
    outputs := outputs.With(webhookName + "APIEndpoint", Sns.Output(Endpoint(options.name)));
    if ApiKeyRequested(options) {
      // `methodResource` is the object stored under the method key.
      resources := resources.Put(webhookName + "Method", SetProperty(methodResource, "ApiKeyRequired", JStr("true")));
      outputs := outputs.With(webhookName + "ApiKey", Sns.Output(Ref(webhookName + "ApiKey")));
    }
    return Ok(Fragment(map[Resources := resources, Outputs := outputs], None));
  }

  /** The nine resource assignments of `buildWebhookEvent`, in order. Every
      key is new when it is assigned (`WebhookResourceKeysDistinct`), so each
      assignment appends. The path resource is assigned before the method
      responses are validated; a failed validation discards the object, so
      the order is not observable. */
  method AssignResources(name: string, methodResource: Json, deployment: string) returns (resources: Dict)
    ensures resources == Literal(WebhookResourceKeys(name, deployment), ResourceValues(name, methodResource, deployment), 9)
  {
    var webhookName := name + "Webhook";
    resources := Empty.With(webhookName + "Resource", PathResource(name));
    resources := resources.With(webhookName + "Method", methodResource);
    resources := resources.With(webhookName + "Permission", InvokePermission(name));
    resources := resources.With(webhookName + "ApiGateway", RestApi);
    resources := resources.With(webhookName + "ApiKey", ApiKey(name, webhookName + deployment));
    resources := resources.With(webhookName + deployment, Deployment(name));
    resources := resources.With(webhookName + "ApiLatencyAlarm", ApiAlarm("4", "ApiLatencyAlarm", "Latency"));
    resources := resources.With(webhookName + "Api4xxAlarm", ApiAlarm("100", "Api4xxAlarm", "4xxError"));
    resources := resources.With(webhookName + "ApiCountAlarm", ApiAlarm("10000", "ApiCountAlarm", "Count"));
    LiteralOfNine(WebhookResourceKeys(name, deployment), ResourceValues(name, methodResource, deployment));
  }
}

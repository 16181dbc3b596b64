/** lib/artifacts/roles.js: the IAM role the function (and its rules) assume,
    and the validation of caller-supplied policy statements. */
module Roles {
  import opened Wrappers
  import opened Json
  import opened Model

  /** The error one caller statement raises, checks in order: `Effect`, then
      `Resource`/`NotResource`, then `Action`/`NotAction`. A `null` entry cannot
      be read at all. */
  function StatementError(statement: Json): Option<Error> {
    if statement.JNull? then Some(TypeError("Cannot read property 'Effect' of null"))
    else if !Present(Lookup(statement, "Effect")) then Some(Failure("statement must contain Effect"))
    else if !Present(Lookup(statement, "Resource")) && !Present(Lookup(statement, "NotResource")) then
      Some(Failure("statement must contain Resource or NotResource"))
    else if !Present(Lookup(statement, "Action")) && !Present(Lookup(statement, "NotAction")) then
      Some(Failure("statement must contain Action or NotAction"))
    else None
  }

  /** The `i`-th statement is the first that fails a check. */
  predicate FirstBadStatement(statements: seq<Json>, i: int) {
    0 <= i < |statements|
    && StatementError(statements[i]).Some?
    && forall j :: 0 <= j < i ==> StatementError(statements[j]).None?
  }

  /** The `forEach` over the statements: the error of the first failing statement, if any. */
  function FirstStatementError(statements: seq<Json>): (r: Option<Error>)
    ensures r.None? <==> forall i :: 0 <= i < |statements| ==> StatementError(statements[i]).None?
    ensures r.Some? ==> exists i :: FirstBadStatement(statements, i) && r == StatementError(statements[i])
  {
    if statements == [] then None
    else if StatementError(statements[0]).Some? then
      assert FirstBadStatement(statements, 0);
      StatementError(statements[0])
    else
      var r := FirstStatementError(statements[1..]);
      assert forall i :: 1 <= i < |statements| ==> statements[i] == statements[1..][i - 1];
      if r.Some? then
        var i :| FirstBadStatement(statements[1..], i) && r == StatementError(statements[1..][i]);
        assert FirstBadStatement(statements, i + 1);
        r
      else r
  }

  /** `statementValidation`: the statements must form an array, and every
      statement must pass its checks. */
  function StatementValidation(statements: Json): (r: Option<Error>)
    ensures !statements.JArr? ==> r == Some(Failure("options.statements must be an array"))
    ensures statements.JArr? ==> r == FirstStatementError(statements.items)
  {
    if !statements.JArr? then Some(Failure("options.statements must be an array"))
    else FirstStatementError(statements.items)
  }

  /** A trust statement letting `service` assume the role */
  function TrustStatement(service: string): Json {
    JObj(Empty
      .With("Sid", JStr(""))
      .With("Effect", JStr("Allow"))
      .With("Principal", JObj(Empty.With("Service", JStr(service))))
      .With("Action", JStr("sts:AssumeRole")))
  }

  /** One trust statement per service, in order */
  function TrustStatements(services: seq<string>): (r: seq<Json>)
    ensures |r| == |services|
    ensures forall i :: 0 <= i < |services| ==> r[i] == TrustStatement(services[i])
  {
    seq(|services|, i requires 0 <= i < |services| => TrustStatement(services[i]))
  }

  /** `options.eventSources && options.eventSources.webhook` */
  predicate WebhookRequested(options: Options) {
    options.eventSources.Some? && Present(options.eventSources.value.Get("webhook"))
  }

  /** The services that may assume the role: API Gateway only for a webhook function. */
  function TrustedServices(options: Options): (r: seq<string>)
    ensures |r| == if WebhookRequested(options) then 3 else 2
    ensures r[..2] == ["lambda.amazonaws.com", "events.amazonaws.com"]
    ensures "apigateway.amazonaws.com" in r <==> WebhookRequested(options)
  {
    ["lambda.amazonaws.com", "events.amazonaws.com"]
      + if WebhookRequested(options) then ["apigateway.amazonaws.com"] else []
  }

  function AllowStatement(action: string, resource: Json): Json {
    JObj(Empty
      .With("Effect", JStr("Allow"))
      .With("Action", JArr([JStr(action)]))
      .With("Resource", resource))
  }

  /** The statements of the `basic` policy every role carries */
  const BasicStatements: seq<Json> := [
    AllowStatement("logs:*", Join("", [JStr("arn:aws:logs:*:"), AccountIdRef, JStr(":*")])),
    AllowStatement("sns:Publish", Ref("ServiceAlarmSNSTopic")),
    AllowStatement("iam:SimulateCustomPolicy", JStr("*"))
  ]

  /** `{PolicyName: name, PolicyDocument: {Statement: statements}}` */
  function Policy(name: string, statements: Json): Json {
    JObj(Empty
      .With("PolicyName", JStr(name))
      .With("PolicyDocument", JObj(PolicyDocument(statements))))
  }

  function PolicyDocument(statements: Json): Dict {
    Empty.With("Statement", statements)
  }

  const BasicPolicy: Json := Policy("basic", JArr(BasicStatements))

  /** The policy name and the statements of a policy */
  function PolicyName(policy: Json): Option<Json> {
    Lookup(policy, "PolicyName")
  }

  function PolicyStatements(policy: Json): Option<Json> {
    var doc := Lookup(policy, "PolicyDocument");
    if doc.Some? then Lookup(doc.value, "Statement") else None
  }

  /** A policy built from a name and statements gives both back unchanged. */
  lemma PolicyParts(name: string, statements: Json)
    ensures PolicyName(Policy(name, statements)) == Some(JStr(name))
    ensures PolicyStatements(Policy(name, statements)) == Some(statements)
  {
  }

  /** `basic` grants exactly three actions: all of CloudWatch Logs, publishing
      to the alarm topic, and policy simulation. */
  lemma BasicPolicyGrants()
    ensures PolicyName(BasicPolicy) == Some(JStr("basic"))
    ensures PolicyStatements(BasicPolicy) == Some(JArr(BasicStatements))
    ensures |BasicStatements| == 3
    ensures Lookup(BasicStatements[0], "Action") == Some(JArr([JStr("logs:*")]))
    ensures Lookup(BasicStatements[1], "Action") == Some(JArr([JStr("sns:Publish")]))
    ensures Lookup(BasicStatements[1], "Resource") == Some(Ref("ServiceAlarmSNSTopic"))
    ensures Lookup(BasicStatements[2], "Action") == Some(JArr([JStr("iam:SimulateCustomPolicy")]))
    ensures forall i :: 0 <= i < 3 ==> Lookup(BasicStatements[i], "Effect") == Some(JStr("Allow"))
  {
    PolicyParts("basic", JArr(BasicStatements));
  }

  /** The role's policies: `basic`, then the caller's statements under the function's name. */
  function RolePolicies(options: Options): (r: seq<Json>)
    ensures |r| == if Present(options.statements) then 2 else 1
    ensures r[0] == BasicPolicy
    ensures |r| == 2 ==> r[1] == Policy(options.name, options.statements.value)
  {
    [BasicPolicy] + if Present(options.statements) then [Policy(options.name, options.statements.value)] else []
  }

  /** The `AWS::IAM::Role` resource with the given trust statements and policies */
  function RoleResource(trust: seq<Json>, policies: seq<Json>): Json {
    JObj(Empty
      .With("Type", JStr("AWS::IAM::Role"))
      .With("Properties", JObj(RoleProperties(trust, policies))))
  }

  function RoleProperties(trust: seq<Json>, policies: seq<Json>): Dict {
    Empty
      .With("AssumeRolePolicyDocument", JObj(Empty.With("Statement", JArr(trust))))
      .With("Path", JStr("/"))
      .With("Policies", JArr(policies))
  }

  /** `role.Properties.AssumeRolePolicyDocument.Statement` */
  function TrustOf(role: Json): Option<Json> {
    var doc := Prop(role, "AssumeRolePolicyDocument");
    if doc.Some? then Lookup(doc.value, "Statement") else None
  }

  /** A role resource gives back its type, path, trust statements and policies. */
  lemma RoleResourceParts(trust: seq<Json>, policies: seq<Json>)
    ensures Lookup(RoleResource(trust, policies), "Type") == Some(JStr("AWS::IAM::Role"))
    ensures Prop(RoleResource(trust, policies), "Path") == Some(JStr("/"))
    ensures TrustOf(RoleResource(trust, policies)) == Some(JArr(trust))
    ensures Prop(RoleResource(trust, policies), "Policies") == Some(JArr(policies))
  {
  }

  /** The caller's policy statements are given and rejected. */
  predicate StatementsFail(options: Options) {
    Present(options.statements) && StatementValidation(options.statements.value).Some?
  }

  /** `buildRole`: one role resource keyed by `roleName`; statement validation
      runs only when statements are given, and its error is the builder's. */
  method BuildRole(options: Options, roleName: string) returns (r: Result<Fragment>)
    ensures r.Err? <==> StatementsFail(options)
    ensures r.Err? ==> r.error == StatementValidation(options.statements.value).value
    ensures r.Ok? ==> r.value.sections.Keys == {Resources} && r.value.policies.None?
    ensures r.Ok? ==> r.value.sections[Resources].keys == [roleName]
    ensures r.Ok? ==>
      r.value.sections[Resources].Get(roleName)
      == Some(RoleResource(TrustStatements(TrustedServices(options)), RolePolicies(options)))
  {
    var trust := TrustStatements(["lambda.amazonaws.com", "events.amazonaws.com"]);
    if WebhookRequested(options) {
      trust := trust + [TrustStatement("apigateway.amazonaws.com")];
    }
    assert trust == TrustStatements(TrustedServices(options));
    var policies := [BasicPolicy];
    if Present(options.statements) {
      var err := StatementValidation(options.statements.value);
      if err.Some? {
        return Err(err.value);
      }
      policies := policies + [Policy(options.name, options.statements.value)];
    }
    assert policies == RolePolicies(options);
    var resources := Empty.With(roleName, RoleResource(trust, policies));
    return Ok(Fragment(map[Resources := resources], None));
  }
}

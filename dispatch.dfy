/** lib/artifacts/dispatch.js: support for an optional Dispatch SNS topic. The
    compiled template gains the `HasDispatchSnsArn` condition, the
    `DispatchSnsArn` parameter and `LambdaCfnDispatchRole`, a copy of the
    function's role that may also publish to that topic. */
module Dispatch {
  import opened Wrappers
  import opened Json
  import opened Model
  import opened Roles
  import opened Compile

  /** `{'Fn::Not': [{'Fn::Equals': ['', cf.ref('DispatchSnsArn')]}]}` */
  const HasDispatchSnsArn: Json :=
    JObj(Empty.With("Fn::Not", JArr([JObj(Empty.With("Fn::Equals", JArr([JStr(""), Ref("DispatchSnsArn")])))])))

  const DispatchSnsArnParameter: Json :=
    JObj(Empty.With("Type", JStr("String")).With("Description", JStr("Dispatch SNS ARN (Optional)")))

  /** The statement pushed onto the dispatch role's first policy */
  const DispatchStatement: Json :=
    JObj(Empty.With("Effect", JStr("Allow")).With("Action", JArr([JStr("sns:Publish")])).With("Resource", Ref("DispatchSnsArn")))

  const DispatchRoleName: string := "LambdaCfnDispatchRole"

  /** `o[0]`: the first element of an array, property `'0'` of an object */
  function First(o: Option<Json>): (r: Result<Option<Json>>)
    ensures r.Err? <==> o.None? || o.value.JNull?
    ensures r.Ok? && r.value.Some? ==> (o.value.JArr? && |o.value.items| > 0) || o.value.JObj?
  {
    if o.None? then Err(TypeError("Cannot read property '0' of undefined"))
    else if o.value.JNull? then Err(TypeError("Cannot read property '0' of null"))
    else if o.value.JArr? then Ok(if |o.value.items| > 0 then Some(o.value.items[0]) else None)
    else Ok(Lookup(o.value, "0"))
  }

  /** `o[0] = v` on the array or object `o[0]` was read from */
  function SetFirst(o: Json, v: Json): Json
    requires (o.JArr? && |o.items| > 0) || o.JObj?
  {
    if o.JArr? then JArr(o.items[0 := v]) else JObj(o.obj.Put("0", v))
  }

  /** `role.Properties.Policies[0].PolicyDocument.Statement.push(statement)`:
      every step of the path fails as JavaScript does on a missing value, and
      every object on the path is updated in place. */
  function PushFirstPolicyStatement(role: Json, statement: Json): Result<Json> {
    var props :- Member(Some(role), "Properties");
    var policies :- Member(props, "Policies");
    var first :- First(policies);
    var document :- Member(first, "PolicyDocument");
    var statements :- Member(document, "Statement");
    if statements.None? then Err(TypeError("Cannot read property 'push' of undefined"))
    else if statements.value.JNull? then Err(TypeError("Cannot read property 'push' of null"))
    else if !statements.value.JArr? then Err(TypeError("Statement.push is not a function"))
    else
      var document' := JObj(document.value.obj.Put("Statement", JArr(statements.value.items + [statement])));
      var first' := JObj(first.value.obj.Put("PolicyDocument", document'));
      var props' := JObj(props.value.obj.Put("Policies", SetFirst(policies.value, first')));
      Ok(JObj(role.obj.Put("Properties", props')))
  }

  /** The role `buildRole(options, name)` builds, marked with `HasDispatchSnsArn` */
  function ConditionalRole(trust: seq<Json>, policies: seq<Json>): Json {
    JObj(RoleResource(trust, policies).obj.Put("Condition", JStr("HasDispatchSnsArn")))
  }

  /** The policies of the dispatch role: those of the function's role, with
      the dispatch statement added to the first, `basic`. */
  function DispatchPolicies(options: Options): (r: seq<Json>)
    ensures |r| == |RolePolicies(options)| && r[1..] == RolePolicies(options)[1..]
  {
    [Policy("basic", JArr(BasicStatements + [DispatchStatement]))] + RolePolicies(options)[1..]
  }

  /** The dispatch role as a value: the function's trust statements, the
      dispatch policies, and the condition. */
  function DispatchRole(options: Options): Json {
    ConditionalRole(TrustStatements(TrustedServices(options)), DispatchPolicies(options))
  }

  /** The conditions with `HasDispatchSnsArn` added unless already there */
  function AddCondition(conditions: Dict): Dict {
    if "HasDispatchSnsArn" in conditions.keys then conditions
    else conditions.Put("HasDispatchSnsArn", HasDispatchSnsArn)
  }

  /** The role `buildRole(options, 'LambdaCfnDispatchRole')` gives, marked and
      with the dispatch statement pushed. */
  function DispatchRoleValue(options: Options): Result<Json> {
    if Present(options.statements) && StatementValidation(options.statements.value).Some? then
      Err(StatementValidation(options.statements.value).value)
    else PushFirstPolicyStatement(ConditionalRole(TrustStatements(TrustedServices(options)), RolePolicies(options)), DispatchStatement)
  }

  /** `addDispatchSupport(template, options)` on the template's value */
  function DispatchSupport(doc: Doc, options: Options): Result<Doc> {
    WithDispatch(doc, DispatchRoleValue(options))
  }

  /** The template with the condition, the parameter and the dispatch role
      (or the error building it) added, failing where the source does. */
  function WithDispatch(doc: Doc, role: Result<Json>): Result<Doc> {
    var withCondition := doc.sections[Conditions := AddCondition(Existing(doc, Conditions))];
    if Parameters !in doc.sections then Err(TypeError("Cannot set property 'DispatchSnsArn' of undefined"))
    else
      var withParameter := withCondition[Parameters := doc.sections[Parameters].Put("DispatchSnsArn", DispatchSnsArnParameter)];
      var r :- role;
      if Resources !in doc.sections then Err(TypeError("Cannot set property 'LambdaCfnDispatchRole' of undefined"))
      else Ok(doc.(sections := withParameter[Resources := doc.sections[Resources].Put(DispatchRoleName, r)]))
  }

  /** Pushing onto the first policy of a freshly built role adds the statement
      to that policy and changes nothing else. */
  lemma PushOnRole(trust: seq<Json>, policies: seq<Json>, name: string, statements: seq<Json>, statement: Json)
    requires |policies| > 0 && policies[0] == Policy(name, JArr(statements))
    ensures PushFirstPolicyStatement(ConditionalRole(trust, policies), statement)
      == Ok(ConditionalRole(trust, [Policy(name, JArr(statements + [statement]))] + policies[1..]))
  {
    RoleReads(trust, policies, name, statements);
    RoleWrites(trust, policies, name, statements, statement);
  }

  /** Every step of the path to the first policy's statements succeeds on a
      freshly built role. */
  lemma RoleReads(trust: seq<Json>, policies: seq<Json>, name: string, statements: seq<Json>)
    requires |policies| > 0 && policies[0] == Policy(name, JArr(statements))
    ensures Member(Some(ConditionalRole(trust, policies)), "Properties") == Ok(Some(JObj(RoleProperties(trust, policies))))
    ensures Member(Some(JObj(RoleProperties(trust, policies))), "Policies") == Ok(Some(JArr(policies)))
    ensures First(Some(JArr(policies))) == Ok(Some(policies[0]))
    ensures Member(Some(policies[0]), "PolicyDocument") == Ok(Some(JObj(PolicyDocument(JArr(statements)))))
    ensures Member(Some(JObj(PolicyDocument(JArr(statements)))), "Statement") == Ok(Some(JArr(statements)))
  {
    var c := JStr("HasDispatchSnsArn");
    var top := Empty.With("Type", JStr("AWS::IAM::Role"));
    var props := RoleProperties(trust, policies);
    PutFresh(RoleResource(trust, policies).obj, "Condition", c);
    assert ConditionalRole(trust, policies) == JObj(top.With("Properties", JObj(props)).With("Condition", c));
  }

  /** Writing the longer statement list back along that path gives the role
      built with it. */
  lemma RoleWrites(trust: seq<Json>, policies: seq<Json>, name: string, statements: seq<Json>, statement: Json)
    requires |policies| > 0 && policies[0] == Policy(name, JArr(statements))
    ensures
      var document' := JObj(PolicyDocument(JArr(statements)).Put("Statement", JArr(statements + [statement])));
      var first' := JObj(policies[0].obj.Put("PolicyDocument", document'));
      var props' := JObj(RoleProperties(trust, policies).Put("Policies", SetFirst(JArr(policies), first')));
      JObj(ConditionalRole(trust, policies).obj.Put("Properties", props'))
        == ConditionalRole(trust, [Policy(name, JArr(statements + [statement]))] + policies[1..])
  {
    var c := JStr("HasDispatchSnsArn");
    var top := Empty.With("Type", JStr("AWS::IAM::Role"));
    var props := RoleProperties(trust, policies);
    PutFresh(RoleResource(trust, policies).obj, "Condition", c);
    assert ConditionalRole(trust, policies) == JObj(top.With("Properties", JObj(props)).With("Condition", c));
    var document := PolicyDocument(JArr(statements));
    var document' := PolicyDocument(JArr(statements + [statement]));
    PutLast(Empty, "Statement", JArr(statements), JArr(statements + [statement]));
    var first' := Policy(name, JArr(statements + [statement]));
    PutLast(Empty.With("PolicyName", JStr(name)), "PolicyDocument", JObj(document), JObj(document'));
    var policies' := [first'] + policies[1..];
    assert SetFirst(JArr(policies), first') == JArr(policies');
    var props' := RoleProperties(trust, policies');
    PutLast(Empty.With("AssumeRolePolicyDocument", JObj(Empty.With("Statement", JArr(trust)))).With("Path", JStr("/")),
      "Policies", JArr(policies), JArr(policies'));
    PutSecondLast(top, "Properties", JObj(props), "Condition", c, JObj(props'));
    PutFresh(RoleResource(trust, policies').obj, "Condition", c);
  }

  /** The dispatch role is the function's role with the condition and one
      more statement in its first policy: publishing to the Dispatch topic. */
  lemma DispatchRoleParts(options: Options)
    ensures DispatchRoleValue(options).Err? <==>
      Present(options.statements) && StatementValidation(options.statements.value).Some?
    ensures DispatchRoleValue(options).Ok? ==> DispatchRoleValue(options).value == DispatchRole(options)
    ensures Lookup(DispatchRole(options), "Condition") == Some(JStr("HasDispatchSnsArn"))
    ensures TrustOf(DispatchRole(options)) == Some(JArr(TrustStatements(TrustedServices(options))))
    ensures Prop(DispatchRole(options), "Policies") == Some(JArr(DispatchPolicies(options)))
    ensures PolicyStatements(DispatchPolicies(options)[0]) == Some(JArr(BasicStatements + [DispatchStatement]))
    ensures Lookup(DispatchStatement, "Action") == Some(JArr([JStr("sns:Publish")]))
    ensures Lookup(DispatchStatement, "Resource") == Some(Ref("DispatchSnsArn"))
  {
    PushOnRole(TrustStatements(TrustedServices(options)), RolePolicies(options), "basic", BasicStatements, DispatchStatement);
  }

  /** Adding dispatch support fails only where the template lacks
      `Parameters` or `Resources`, or the role could not be built; otherwise it
      adds the condition (unless the template has it), the parameter and the
      role, keeping every other entry and collection. */
  lemma WithDispatchSpec(doc: Doc, role: Result<Json>)
    ensures WithDispatch(doc, role).Err? <==>
      Parameters !in doc.sections || role.Err? || Resources !in doc.sections
    ensures WithDispatch(doc, role).Ok? ==>
      var r := WithDispatch(doc, role).value;
      && r.policies == doc.policies
      && r.sections.Keys == doc.sections.Keys + {Conditions}
      && (forall s :: s !in {Conditions, Parameters, Resources} && s in doc.sections ==> r.sections[s] == doc.sections[s])
      && r.sections[Conditions] == AddCondition(Existing(doc, Conditions))
      && r.sections[Parameters] == doc.sections[Parameters].Put("DispatchSnsArn", DispatchSnsArnParameter)
      && r.sections[Resources] == doc.sections[Resources].Put(DispatchRoleName, role.value)
  {
  }

  /** Dispatch support fails only where the template lacks `Parameters` or
      `Resources`, or the caller's statements are rejected; the role it adds
      is the dispatch role. */
  lemma DispatchSupportSpec(doc: Doc, options: Options)
    ensures DispatchSupport(doc, options).Err? <==>
      || Parameters !in doc.sections
      || (Present(options.statements) && StatementValidation(options.statements.value).Some?)
      || Resources !in doc.sections
    ensures DispatchSupport(doc, options).Ok? ==>
      DispatchSupport(doc, options).value.sections[Resources]
      == doc.sections[Resources].Put(DispatchRoleName, DispatchRole(options))
  {
    DispatchRoleParts(options);
    WithDispatchSpec(doc, DispatchRoleValue(options));
  }

  /** Apart from the dispatch role, every resource keeps its definition. */
  lemma DispatchKeepsResources(doc: Doc, options: Options)
    requires DispatchSupport(doc, options).Ok?
    ensures forall k :: k != DispatchRoleName ==>
      Existing(DispatchSupport(doc, options).value, Resources).Get(k) == Existing(doc, Resources).Get(k)
  {
    DispatchSupportSpec(doc, options);
    PutProperties(doc.sections[Resources], DispatchRoleName, DispatchRole(options));
  }

  /** The condition is added only when missing: an existing definition is kept. */
  lemma AddConditionSpec(conditions: Dict)
    ensures AddCondition(conditions).Get("HasDispatchSnsArn")
      == if "HasDispatchSnsArn" in conditions.keys then conditions.Get("HasDispatchSnsArn") else Some(HasDispatchSnsArn)
    ensures forall k :: k != "HasDispatchSnsArn" ==> AddCondition(conditions).Get(k) == conditions.Get(k)
    ensures AddCondition(conditions).keys
      == if "HasDispatchSnsArn" in conditions.keys then conditions.keys else conditions.keys + ["HasDispatchSnsArn"]
  {
    PutProperties(conditions, "HasDispatchSnsArn", HasDispatchSnsArn);
  }

  /** `addDispatchSupport(template, options)`: the template is updated in
      place; an error is what the source throws, part-way through. Building
      the role reads only the options, so it is done first here; the point at
      which its error surfaces is kept by `InstallDispatch`. */
  method AddDispatchSupport(template: Template, options: Options) returns (err: Option<Error>)
    modifies template
    ensures DispatchSupport(old(template.Value()), options)
      == if err.None? then Ok(template.Value()) else Err(err.value)
    ensures template.formatVersion == old(template.formatVersion) && template.description == old(template.description)
  {
    var role := BuildDispatchRole(options);
    err := InstallDispatch(template, role);
  }

  /** The assignments of `addDispatchSupport`, given the role built (or the
      error building it threw): the condition, the parameter, then the role. */
  method InstallDispatch(template: Template, role: Result<Json>) returns (err: Option<Error>)
    modifies template
    ensures WithDispatch(old(template.Value()), role)
      == if err.None? then Ok(template.Value()) else Err(err.value)
    ensures template.formatVersion == old(template.formatVersion) && template.description == old(template.description)
  {
    ghost var doc := template.Value();
    var conditions := Existing(template.Value(), Conditions);
    template.sections := template.sections[Conditions := conditions];
    if "HasDispatchSnsArn" !in conditions.keys {
      template.sections := template.sections[Conditions := conditions.Put("HasDispatchSnsArn", HasDispatchSnsArn)];
    }
    assert template.sections == doc.sections[Conditions := AddCondition(Existing(doc, Conditions))];
    if Parameters !in template.sections {
      return Some(TypeError("Cannot set property 'DispatchSnsArn' of undefined"));
    }
    template.sections := template.sections[Parameters :=
      template.sections[Parameters].Put("DispatchSnsArn", DispatchSnsArnParameter)];
    if role.Err? {
      return Some(role.error);
    }
    if Resources !in template.sections {
      return Some(TypeError("Cannot set property 'LambdaCfnDispatchRole' of undefined"));
    }
    template.sections := template.sections[Resources := template.sections[Resources].Put(DispatchRoleName, role.value)];
    return None;
  }

  /** `role.buildRole(options, 'LambdaCfnDispatchRole')`, then the condition
      and the statement set on the role it holds */
  method BuildDispatchRole(options: Options) returns (r: Result<Json>)
    ensures r == DispatchRoleValue(options)
  {
    var dispatchRole := BuildRole(options, DispatchRoleName);
    if dispatchRole.Err? {
      return Err(dispatchRole.error);
    }
    var role := dispatchRole.value.sections[Resources].Get(DispatchRoleName).value;
    var conditional := JObj(role.obj.Put("Condition", JStr("HasDispatchSnsArn")));
    r := PushFirstPolicyStatement(conditional, DispatchStatement);
  }
}

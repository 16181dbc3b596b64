/** lib/cfn.js, the passes of `buildFunction` after dispatch support: the
    parameter ceiling, the environment variables of the function resource,
    the removal of `Variables`, and the `Policies` loop. */
module Finish {
  import opened Wrappers
  import opened Json
  import opened Model
  import opened Compile
  import Text

  /** The most parameters a template may declare */
  const MaxParameters: nat := 60

  /** The four stack globals every function sees, each a reference to a
      pseudo parameter */
  const Globals: map<string, Json> :=
    map["StackName" := StackNameRef, "Region" := RegionRef, "AccountId" := AccountIdRef, "StackId" := StackIdRef]

  /** `Variables` with the four stack globals assigned, in order */
  function GlobalVariables(vars: Dict): Dict {
    vars.Put("StackName", StackNameRef).Put("Region", RegionRef).Put("AccountId", AccountIdRef).Put("StackId", StackIdRef)
  }

  /** `Variables` once the first `n` parameter names have each been assigned a reference to themselves */
  function ParameterRefs(vars: Dict, params: seq<string>, n: nat): Dict
    requires n <= |params|
  {
    if n == 0 then vars else ParameterRefs(vars, params, n - 1).Put(params[n - 1], Ref(params[n - 1]))
  }

  /** The variables injected into the function's environment: the template's
      `Variables`, then the globals, then every parameter. */
  function InjectedVariables(doc: Doc): Dict {
    var params := Existing(doc, Parameters).keys;
    ParameterRefs(GlobalVariables(Existing(doc, Variables)), params, |params|)
  }

  /** `undefined` or `null`: reading a property of either is a TypeError. */
  predicate Nullish(o: Option<Json>) {
    o.None? || o.value.JNull?
  }

  /** `resource.Properties.Environment` */
  function EnvironmentOf(resource: Option<Json>): Option<Json> {
    if resource.Some? then Prop(resource.value, "Environment") else None
  }

  /** `resource.Properties.Environment.Variables` */
  function EnvironmentVariables(resource: Option<Json>): Option<Json> {
    var env := EnvironmentOf(resource);
    if env.Some? then Lookup(env.value, "Variables") else None
  }

  /** `resources[name].Properties.Environment.Variables = vars`: reading
      through a missing resource or properties, or assigning on a missing
      environment, is a TypeError; assigning on a primitive does nothing. */
  function SetEnvironmentVariables(resources: Dict, name: string, vars: Dict): Result<Dict> {
    var resource := resources.Get(name);
    var props :- Member(resource, "Properties");
    var env :- Member(props, "Environment");
    if env.None? then Err(TypeError("Cannot set property 'Variables' of undefined"))
    else if env.value.JNull? then Err(TypeError("Cannot set property 'Variables' of null"))
    else if !env.value.JObj? then Ok(resources)
    else
      var env' := JObj(env.value.obj.Put("Variables", JObj(vars)));
      var props' := JObj(props.value.obj.Put("Environment", env'));
      Ok(resources.Put(name, JObj(resource.value.obj.Put("Properties", props'))))
  }

  /** `resources[key].Properties.Policies.push(policies)`: the whole list is
      pushed as one element. */
  function PushPolicies(resources: Dict, key: string, policies: seq<Json>): Result<Dict> {
    var resource := resources.Get(key);
    var props :- Member(resource, "Properties");
    var list :- Member(props, "Policies");
    if list.None? then Err(TypeError("Cannot read property 'push' of undefined"))
    else if list.value.JNull? then Err(TypeError("Cannot read property 'push' of null"))
    else if !list.value.JArr? then Err(TypeError("Policies.push is not a function"))
    else
      var props' := JObj(props.value.obj.Put("Policies", JArr(list.value.items + [JArr(policies)])));
      Ok(resources.Put(key, JObj(resource.value.obj.Put("Properties", props'))))
  }

  /** The array the `Policies` loop iterates over */
  const LambdaCfnRoles: seq<string> := ["LambdaCfnRole", "LambdaCfnDispatchRole"]

  /** The variable `for...in` binds for the `i`-th element of an array: the
      index itself, as a decimal string. */
  function IndexKey(i: nat): (k: string)
    requires i < 10
    ensures k == Text.NatToString(i)
    ensures |k| == 1 && '0' <= k[0] <= '9'
  {
    [(48 + i) as char]
  }

  /** The `Policies` loop after its first `n` passes */
  function PushRolePolicies(resources: Dict, policies: seq<Json>, n: nat): Result<Dict>
    requires n <= |LambdaCfnRoles|
  {
    if n == 0 then Ok(resources)
    else
      var prev :- PushRolePolicies(resources, policies, n - 1);
      PushPolicies(prev, IndexKey(n - 1), policies)
  }

  /** The passes after dispatch support, on the template's value */
  function Finish(doc: Doc, name: string): Result<Doc> {
    if Parameters !in doc.sections then Err(TypeError("Cannot convert undefined or null to object"))
    else if |doc.sections[Parameters].keys| > MaxParameters then Err(Failure("More than 60 parameters specified"))
    else if Resources !in doc.sections then Err(TypeError("Cannot set property '" + name + "' of undefined"))
    else
      var resources :- FinalResources(doc.sections[Resources], name, InjectedVariables(doc), doc.policies);
      Ok(Doc(doc.sections[Resources := resources] - {Variables}, None))
  }

  /** `Resources` after the function's environment is set and, when the
      template has policies, after the `Policies` loop */
  function FinalResources(resources: Dict, name: string, vars: Dict, policies: Option<seq<Json>>): Result<Dict> {
    var updated :- SetEnvironmentVariables(resources, name, vars);
    if policies.None? then Ok(updated) else PushRolePolicies(updated, policies.value, |LambdaCfnRoles|)
  }

  // ----- what the passes compute -----

  /** The globals are assigned over whatever `Variables` held; nothing else changes. */
  lemma GlobalVariablesGet(vars: Dict)
    ensures forall k :: GlobalVariables(vars).Get(k) == if k in Globals then Some(Globals[k]) else vars.Get(k)
  {
  }

  /** The globals are listed after the existing variables, unless already there. */
  lemma GlobalVariablesKeys(vars: Dict)
    ensures forall k :: k in GlobalVariables(vars).keys <==> k in vars.keys || k in Globals
    ensures vars.Valid() ==> GlobalVariables(vars).Valid()
  {
    var v1 := vars.Put("StackName", StackNameRef);
    var v2 := v1.Put("Region", RegionRef);
    var v3 := v2.Put("AccountId", AccountIdRef);
    PutValid(vars, "StackName", StackNameRef);
    PutValid(v1, "Region", RegionRef);
    PutValid(v2, "AccountId", AccountIdRef);
    PutValid(v3, "StackId", StackIdRef);
    assert forall k :: k in Globals <==> k == "StackName" || k == "Region" || k == "AccountId" || k == "StackId";
  }

  /** Every parameter assigned so far refers to itself; every other entry is untouched. */
  lemma {:induction false} ParameterRefsSpec(vars: Dict, params: seq<string>, n: nat)
    requires n <= |params|
    ensures forall k :: ParameterRefs(vars, params, n).Get(k) == if k in params[..n] then Some(Ref(k)) else vars.Get(k)
    ensures forall k :: k in ParameterRefs(vars, params, n).keys <==> k in vars.keys || k in params[..n]
    ensures vars.Valid() ==> ParameterRefs(vars, params, n).Valid()
  {
    if n > 0 {
      ParameterRefsSpec(vars, params, n - 1);
      PutProperties(ParameterRefs(vars, params, n - 1), params[n - 1], Ref(params[n - 1]));
      assert params[..n] == params[..n - 1] + [params[n - 1]];
    }
  }

  /** Every parameter of the template becomes a variable referring to it, the
      globals come next, and a variable of a builder survives only under a
      name that is neither. */
  lemma InjectedVariablesSpec(doc: Doc)
    ensures forall k ::
      InjectedVariables(doc).Get(k) == if k in Existing(doc, Parameters).keys then Some(Ref(k))
        else if k in Globals then Some(Globals[k])
        else Existing(doc, Variables).Get(k)
    ensures forall k :: k in InjectedVariables(doc).keys <==>
      k in Existing(doc, Variables).keys || k in Globals || k in Existing(doc, Parameters).keys
  {
    var params := Existing(doc, Parameters).keys;
    GlobalVariablesGet(Existing(doc, Variables));
    GlobalVariablesKeys(Existing(doc, Variables));
    ParameterRefsSpec(GlobalVariables(Existing(doc, Variables)), params, |params|);
    assert params[..|params|] == params;
  }

  /** The variables land in the environment of resource `name` when it is an
      object; every other resource is untouched and the key order is kept. */
  lemma SetEnvironmentVariablesSpec(resources: Dict, name: string, vars: Dict)
    ensures SetEnvironmentVariables(resources, name, vars).Err? <==>
      || Nullish(resources.Get(name))
      || Nullish(Props(resources.Get(name).value))
      || Nullish(Prop(resources.Get(name).value, "Environment"))
    ensures SetEnvironmentVariables(resources, name, vars).Ok? ==>
      var r := SetEnvironmentVariables(resources, name, vars).value;
      && (resources.Valid() ==> r.keys == resources.keys)
      && (forall k :: k != name ==> r.Get(k) == resources.Get(k))
      && (EnvironmentOf(resources.Get(name)).value.JObj? ==>
            EnvironmentVariables(r.Get(name)) == Some(JObj(vars)))
  {
    var resource := resources.Get(name);
    if resource.Some? && Props(resource.value).Some? {
      var env := Prop(resource.value, "Environment");
      if env.Some? && env.value.JObj? {
        PutProperties(resources, name, SetEnvironmentVariables(resources, name, vars).value.Get(name).value);
        PutValid(resources, name, SetEnvironmentVariables(resources, name, vars).value.Get(name).value);
      }
    }
  }

  /** Reading a resource's environment after the policies were pushed gives what it was. */
  lemma PushPoliciesSpec(resources: Dict, key: string, policies: seq<Json>)
    ensures PushPolicies(resources, key, policies).Ok? ==>
      var r := PushPolicies(resources, key, policies).value;
      && resources.Get(key).Some?
      && (forall k :: k != key ==> r.Get(k) == resources.Get(k))
      && (forall k :: EnvironmentOf(r.Get(k)) == EnvironmentOf(resources.Get(k)))
      && (resources.Valid() ==> r.Valid() && r.keys == resources.keys)
    ensures resources.Get(key).None? ==>
      PushPolicies(resources, key, policies) == Err(TypeError("Cannot read property 'Properties' of undefined"))
  {
    if PushPolicies(resources, key, policies).Ok? {
      var r := PushPolicies(resources, key, policies).value;
      PutValid(resources, key, r.Get(key).value);
      var resource := resources.Get(key).value;
      var props := Props(resource).value;
      var props' := JObj(props.obj.Put("Policies", JArr(Prop(resource, "Policies").value.items + [JArr(policies)])));
      assert r.Get(key) == Some(JObj(resource.obj.Put("Properties", props')));
      assert EnvironmentOf(r.Get(key)) == Lookup(props', "Environment");
    }
    assert "Cannot read property '" + "Properties" + "' of undefined" == "Cannot read property 'Properties' of undefined";
  }

  /** The `Policies` loop touches only the resources named `"0"` and `"1"`,
      the indices of the role names, never the roles themselves; without a
      resource `"0"` it throws. */
  lemma PushRolePoliciesSpec(resources: Dict, policies: seq<Json>)
    ensures PushRolePolicies(resources, policies, |LambdaCfnRoles|).Ok? ==>
      var r := PushRolePolicies(resources, policies, |LambdaCfnRoles|).value;
      && resources.Get("0").Some? && resources.Get("1").Some?
      && (forall k :: k != "0" && k != "1" ==> r.Get(k) == resources.Get(k))
      && (forall k :: EnvironmentOf(r.Get(k)) == EnvironmentOf(resources.Get(k)))
      && (resources.Valid() ==> r.Valid() && r.keys == resources.keys)
    ensures resources.Get("0").None? ==>
      PushRolePolicies(resources, policies, |LambdaCfnRoles|) == Err(TypeError("Cannot read property 'Properties' of undefined"))
  {
    assert IndexKey(0) == "0" && IndexKey(1) == "1";
    PushPoliciesSpec(resources, "0", policies);
    var first := PushPolicies(resources, "0", policies);
    assert PushRolePolicies(resources, policies, 1) == first;
    if first.Ok? {
      assert PushRolePolicies(resources, policies, 2) == PushPolicies(first.value, "1", policies);
      PushPoliciesSpec(first.value, "1", policies);
    }
  }

  /** More than 60 parameters is a failure of its own; a finished template never has more. */
  lemma FinishCeiling(doc: Doc, name: string)
    ensures Finish(doc, name).Ok? ==>
      Parameters in doc.sections && |doc.sections[Parameters].keys| <= MaxParameters
    ensures Parameters in doc.sections && |doc.sections[Parameters].keys| > MaxParameters ==>
      Finish(doc, name) == Err(Failure("More than 60 parameters specified"))
  {
  }

  /** The function's environment holds the variables when it is an object;
      besides the function, only resources `"0"` and `"1"` may change, and
      only when there are policies; the key order is kept. */
  lemma FinalResourcesSpec(resources: Dict, name: string, vars: Dict, policies: Option<seq<Json>>)
    ensures FinalResources(resources, name, vars, policies).Ok? ==>
      var r := FinalResources(resources, name, vars, policies).value;
      && (forall k :: k != name && (policies.None? || (k != "0" && k != "1")) ==> r.Get(k) == resources.Get(k))
      && (EnvironmentOf(resources.Get(name)).value.JObj? ==>
            EnvironmentVariables(r.Get(name)) == Some(JObj(vars)))
      && (resources.Valid() ==> r.Valid() && r.keys == resources.keys)
  {
    SetEnvironmentVariablesSpec(resources, name, vars);
    if policies.Some? && SetEnvironmentVariables(resources, name, vars).Ok? {
      PushRolePoliciesSpec(SetEnvironmentVariables(resources, name, vars).value, policies.value);
    }
  }

  /** A finished template has no `Variables` and no `Policies`; every other
      collection but `Resources` is the one it had. */
  lemma FinishShape(doc: Doc, name: string)
    ensures Finish(doc, name).Ok? ==>
      var r := Finish(doc, name).value;
      && r.policies.None?
      && r.sections.Keys == doc.sections.Keys - {Variables}
      && (forall s :: s in r.sections && s != Resources ==> r.sections[s] == doc.sections[s])
      && r.sections[Resources] == FinalResources(doc.sections[Resources], name, InjectedVariables(doc), doc.policies).value
  {
  }

  /** The finished function resource's environment holds every parameter,
      the globals and the template's variables. */
  lemma FinishEnvironment(doc: Doc, name: string)
    ensures Finish(doc, name).Ok? && EnvironmentOf(Existing(doc, Resources).Get(name)).value.JObj? ==>
      EnvironmentVariables(Existing(Finish(doc, name).value, Resources).Get(name)) == Some(JObj(InjectedVariables(doc)))
  {
    if Finish(doc, name).Ok? {
      FinishShape(doc, name);
      SetEnvironmentVariablesSpec(doc.sections[Resources], name, InjectedVariables(doc));
      FinalResourcesSpec(doc.sections[Resources], name, InjectedVariables(doc), doc.policies);
    }
  }

  /** The `Policies` loop binds the array indices `"0"` and `"1"`, not the role
      names: a template with policies finishes only if it has resources named
      `"0"` and `"1"`, and fails at once without a resource `"0"`. */
  lemma PoliciesNeedIndexResources(doc: Doc, name: string)
    ensures Finish(doc, name).Ok? && doc.policies.Some? ==>
      Existing(doc, Resources).Get("0").Some? && Existing(doc, Resources).Get("1").Some?
    ensures
      && Parameters in doc.sections && |doc.sections[Parameters].keys| <= MaxParameters
      && Resources in doc.sections && Existing(doc, Resources).Get("0").None?
      && SetEnvironmentVariables(doc.sections[Resources], name, InjectedVariables(doc)).Ok?
      && doc.policies.Some?
      ==> Finish(doc, name) == Err(TypeError("Cannot read property 'Properties' of undefined"))
  {
    if Resources in doc.sections {
      var resources := doc.sections[Resources];
      var vars := InjectedVariables(doc);
      SetEnvironmentVariablesSpec(resources, name, vars);
      var updated := SetEnvironmentVariables(resources, name, vars);
      if updated.Ok? && doc.policies.Some? {
        PushRolePoliciesSpec(updated.value, doc.policies.value);
      }
    }
  }

  /** Neither role receives the policies: both keep the value they had
      (unless the function itself bears a role's name). */
  lemma RolesKeepTheirPolicies(doc: Doc, name: string)
    ensures Finish(doc, name).Ok? ==>
      forall k :: k in LambdaCfnRoles && k != name ==>
        Finish(doc, name).value.sections[Resources].Get(k) == Existing(doc, Resources).Get(k)
  {
    if Finish(doc, name).Ok? {
      FinalResourcesSpec(doc.sections[Resources], name, InjectedVariables(doc), doc.policies);
    }
  }

  // ----- the passes, in place -----

  /** `Variables` created if missing, the globals assigned, then every
      parameter, in key order (lib/cfn.js:103-114) */
  method InjectVariables(template: Template)
    modifies template
    ensures template.sections == old(template.sections)[Variables := InjectedVariables(old(template.Value()))]
    ensures template.policies == old(template.policies)
    ensures template.formatVersion == old(template.formatVersion) && template.description == old(template.description)
  {
    ghost var doc := template.Value();
    var vars := Existing(template.Value(), Variables);
    vars := vars.Put("StackName", StackNameRef);
    vars := vars.Put("Region", RegionRef);
    vars := vars.Put("AccountId", AccountIdRef);
    vars := vars.Put("StackId", StackIdRef);
    var params := Existing(template.Value(), Parameters).keys;
    template.sections := template.sections[Variables := vars];
    for i := 0 to |params|
      invariant template.sections == doc.sections[Variables := ParameterRefs(vars, params, i)]
      invariant template.policies == doc.policies
      invariant template.formatVersion == old(template.formatVersion) && template.description == old(template.description)
    {
      template.sections := template.sections[Variables := template.sections[Variables].Put(params[i], Ref(params[i]))];
    }
  }

  /** The `Policies` loop on the template's `Resources` (lib/cfn.js:126-130) */
  method PushPoliciesOntoRoles(template: Template, policies: seq<Json>) returns (err: Option<Error>)
    requires Resources in template.sections
    modifies template
    ensures Resources in template.sections
    ensures PushRolePolicies(old(template.sections[Resources]), policies, |LambdaCfnRoles|)
      == if err.None? then Ok(template.sections[Resources]) else Err(err.value)
    ensures err.None? ==> template.sections == old(template.sections)[Resources := template.sections[Resources]]
    ensures template.policies == old(template.policies)
    ensures template.formatVersion == old(template.formatVersion) && template.description == old(template.description)
  {
    ghost var resources := template.sections[Resources];
    ghost var sections := template.sections;
    for i := 0 to |LambdaCfnRoles|
      invariant Resources in template.sections
      invariant PushRolePolicies(resources, policies, i) == Ok(template.sections[Resources])
      invariant template.sections == sections[Resources := template.sections[Resources]]
      invariant template.policies == old(template.policies)
      invariant template.formatVersion == old(template.formatVersion) && template.description == old(template.description)
    {
      var pushed := PushPolicies(template.sections[Resources], IndexKey(i), policies);
      if pushed.Err? {
        assert i == 0 ==> PushRolePolicies(resources, policies, 2) == Err(pushed.error);
        return Some(pushed.error);
      }
      template.sections := template.sections[Resources := pushed.value];
    }
    return None;
  }

  /** The function's environment, dropping `Variables`, then the `Policies`
      loop when the template has policies */
  method SetFinalResources(template: Template, name: string) returns (err: Option<Error>)
    requires Resources in template.sections && Variables in template.sections
    modifies template
    ensures Resources in template.sections
    ensures FinalResources(old(template.sections[Resources]), name, old(template.sections[Variables]), old(template.policies))
      == if err.None? then Ok(template.sections[Resources]) else Err(err.value)
    ensures err.None? ==>
      && template.sections == old(template.sections)[Resources := template.sections[Resources]] - {Variables}
      && template.policies.None?
    ensures template.formatVersion == old(template.formatVersion) && template.description == old(template.description)
  {
    var updated := SetEnvironmentVariables(template.sections[Resources], name, template.sections[Variables]);
    if updated.Err? {
      return Some(updated.error);
    }
    template.sections := template.sections[Resources := updated.value] - {Variables};
    if template.policies.Some? {
      err := PushPoliciesOntoRoles(template, template.policies.value);
      if err.Some? {
        return err;
      }
      template.policies := None;
    }
    return None;
  }

  /** The passes after dispatch support (lib/cfn.js:91-133), in place: an
      error is what the source throws, part-way through. */
  method FinishTemplate(template: Template, name: string) returns (err: Option<Error>)
    modifies template
    ensures Finish(old(template.Value()), name) == if err.None? then Ok(template.Value()) else Err(err.value)
    ensures template.formatVersion == old(template.formatVersion) && template.description == old(template.description)
  {
    ghost var doc := template.Value();
    if Parameters !in template.sections {
      return Some(TypeError("Cannot convert undefined or null to object"));
    }
    if |template.sections[Parameters].keys| > MaxParameters {
      return Some(Failure("More than 60 parameters specified"));
    }
    InjectVariables(template);
    if Resources !in template.sections {
      return Some(TypeError("Cannot set property '" + name + "' of undefined"));
    }
    err := SetFinalResources(template, name);
    if err.Some? {
      return err;
    }
    assert template.sections == doc.sections[Resources := template.sections[Resources]] - {Variables};
    return None;
  }
}

/** lib/artifacts/parameters.js: the caller's CloudFormation parameters,
    validated, plus the three parameters every deployment needs. */
module Parameters {
  import opened Wrappers
  import opened Json
  import opened Model

  /** `/^[a-zA-Z0-9]+$/.test(name)` */
  predicate IsAlphanumeric(name: string) {
    |name| > 0 && forall i :: 0 <= i < |name| ==>
      ('a' <= name[i] <= 'z') || ('A' <= name[i] <= 'Z') || ('0' <= name[i] <= '9')
  }

  /** The checks one caller parameter goes through, in order: its name, then `Type`, then `Description`. */
  function EntryError(params: Dict, name: string): Option<Error> {
    if !IsAlphanumeric(name) then Some(Failure("Parameter names must be alphanumeric"))
    else match params.Get(name)
      case None => Some(TypeError("Cannot read property 'Type' of undefined"))
      case Some(JNull) => Some(TypeError("Cannot read property 'Type' of null"))
      case Some(v) =>
        if !Present(Lookup(v, "Type")) then Some(Failure("Parameter must contain Type property"))
        else if !Present(Lookup(v, "Description")) then Some(Failure("Parameter must contain Description property"))
        else None
  }

  /** The `i`-th parameter is the first one, in iteration order, that fails a check. */
  predicate FirstFailureAt(params: Dict, i: int) {
    0 <= i < |params.keys|
    && EntryError(params, params.keys[i]).Some?
    && forall j :: 0 <= j < i ==> EntryError(params, params.keys[j]).None?
  }

  /** `validParameters`: reports the first failing parameter, or nothing when all pass. */
  method ValidParameters(params: Dict) returns (err: Option<Error>)
    ensures err.None? <==> forall i :: 0 <= i < |params.keys| ==> EntryError(params, params.keys[i]).None?
    ensures err.Some? ==> exists i :: FirstFailureAt(params, i) && err == EntryError(params, params.keys[i])
  {
    var n := 0;
    while n < |params.keys|
      invariant 0 <= n <= |params.keys|
      invariant forall j :: 0 <= j < n ==> EntryError(params, params.keys[j]).None?
    {
      var e := EntryError(params, params.keys[n]);
      if e.Some? {
        assert FirstFailureAt(params, n);
        return e;
      }
      n := n + 1;
    }
    return None;
  }

  /** A `{Type: 'String', Description: ...}` parameter */
  function StringParameter(description: string): Json {
    JObj(Empty.With("Type", JStr("String")).With("Description", JStr(description)))
  }

  const BuiltInNames: seq<string> := ["CodeS3Bucket", "CodeS3Prefix", "GitSha"]

  /** The parameter `buildParameters` always assigns under one of `BuiltInNames` */
  function BuiltIn(k: string): Json
    requires k in BuiltInNames
  {
    if k == "CodeS3Bucket" then StringParameter("lambda function S3 bucket location")
    else if k == "CodeS3Prefix" then StringParameter("lambda function S3 prefix location")
    else StringParameter("Deploy Gitsha")
  }

  /** The caller's parameters, `{}` when there are none */
  function CallerParameters(options: Options): Dict {
    if options.parameters.Some? then options.parameters.value else Empty
  }

  /** After the three assignments of `buildParameters`, a built-in name holds
      the built-in parameter and every other name what it held before. */
  lemma BuiltInsAssigned(ps: Dict)
    ensures forall k ::
      ps.Put("CodeS3Bucket", BuiltIn("CodeS3Bucket")).Put("CodeS3Prefix", BuiltIn("CodeS3Prefix"))
        .Put("GitSha", BuiltIn("GitSha")).Get(k)
        == if k in BuiltInNames then Some(BuiltIn(k)) else ps.Get(k)
  {
  }

  /** The built-in names a key list does not have yet, in assignment order */
  function AddedBuiltIns(keys: seq<string>): seq<string> {
    (if "CodeS3Bucket" in keys then [] else ["CodeS3Bucket"])
    + (if "CodeS3Prefix" in keys then [] else ["CodeS3Prefix"])
    + (if "GitSha" in keys then [] else ["GitSha"])
  }

  /** The three assignments keep the caller's keys in place, append the built-in
      names the caller did not use in the order they are assigned, and keep the
      object valid. */
  lemma BuiltInKeys(ps: Dict)
    ensures
      var p3 := ps.Put("CodeS3Bucket", BuiltIn("CodeS3Bucket")).Put("CodeS3Prefix", BuiltIn("CodeS3Prefix"))
        .Put("GitSha", BuiltIn("GitSha"));
      && (forall k :: k in p3.keys <==> k in ps.keys || k in BuiltInNames)
      && p3.keys == ps.keys + AddedBuiltIns(ps.keys)
      && (ps.Valid() ==> p3.Valid())
  {
    var b1, b2, b3 := BuiltIn("CodeS3Bucket"), BuiltIn("CodeS3Prefix"), BuiltIn("GitSha");
    PutThree(ps, "CodeS3Bucket", b1, "CodeS3Prefix", b2, "GitSha", b3);
    var p3 := ps.Put("CodeS3Bucket", b1).Put("CodeS3Prefix", b2).Put("GitSha", b3);
    assert p3.keys == ps.keys + AddedBuiltIns(ps.keys);
    forall k ensures k in p3.keys <==> k in ps.keys || k in BuiltInNames {
      assert k in AddedBuiltIns(ps.keys) ==> k in BuiltInNames;
      assert k in BuiltInNames && k !in ps.keys ==> k in AddedBuiltIns(ps.keys);
    }
  }

  /** Three assignments to distinct keys append, in order, those the object lacked. */
  lemma PutThree(ps: Dict, k1: string, v1: Json, k2: string, v2: Json, k3: string, v3: Json)
    requires k1 != k2 && k1 != k3 && k2 != k3
    ensures
      ps.Put(k1, v1).Put(k2, v2).Put(k3, v3).keys
      == ps.keys + (if k1 in ps.keys then [] else [k1]) + (if k2 in ps.keys then [] else [k2])
         + (if k3 in ps.keys then [] else [k3])
    ensures ps.Valid() ==> ps.Put(k1, v1).Put(k2, v2).Put(k3, v3).Valid()
  {
    var p1 := ps.Put(k1, v1);
    var p2 := p1.Put(k2, v2);
    PutValid(ps, k1, v1);
    PutValid(p1, k2, v2);
    PutValid(p2, k3, v3);
  }

  /** A caller parameter fails validation. */
  predicate ParametersFail(options: Options) {
    options.parameters.Some? &&
    exists i :: 0 <= i < |options.parameters.value.keys| &&
      EntryError(options.parameters.value, options.parameters.value.keys[i]).Some?
  }

  /** `e` is what the first failing caller parameter throws. */
  ghost predicate ParametersError(options: Options, e: Error)
    requires ParametersFail(options)
  {
    var ps := options.parameters.value;
    exists i :: FirstFailureAt(ps, i) && e == EntryError(ps, ps.keys[i]).value
  }

  /** The fragment `buildParameters` returns: only a Parameters collection,
      holding the caller's keys in order followed by the built-in names the
      caller did not use; a built-in name holds its built-in parameter and
      every other key the caller's value. */
  ghost predicate ParametersBuilt(f: Fragment, options: Options) {
    var caller := CallerParameters(options);
    && f.sections.Keys == {Parameters} && f.policies.None?
    && (forall k :: f.sections[Parameters].Get(k) == if k in BuiltInNames then Some(BuiltIn(k)) else caller.Get(k))
    && (forall k :: k in f.sections[Parameters].keys <==> k in caller.keys || k in BuiltInNames)
    && f.sections[Parameters].keys == caller.keys + AddedBuiltIns(caller.keys)
    && (caller.Valid() ==> f.sections[Parameters].Valid())
  }

  /** `buildParameters`: the caller's parameters (validated) with the three
      built-ins assigned over them; a built-in name the caller used keeps its
      place and gets the built-in value. */
  method BuildParameters(options: Options) returns (r: Result<Fragment>)
    ensures r.Err? <==> ParametersFail(options)
    ensures r.Err? ==> ParametersError(options, r.error)
    ensures r.Ok? ==> ParametersBuilt(r.value, options)
  {
    var ps := Empty;
    if options.parameters.Some? {
      var err := ValidParameters(options.parameters.value);
      if err.Some? {
        return Err(err.value);
      }
      ps := options.parameters.value;
    }
    assert ps == CallerParameters(options);
    var p1 := ps.Put("CodeS3Bucket", BuiltIn("CodeS3Bucket"));
    var p2 := p1.Put("CodeS3Prefix", BuiltIn("CodeS3Prefix"));
    var p3 := p2.Put("GitSha", BuiltIn("GitSha"));
    BuiltInsAssigned(ps);
    BuiltInKeys(ps);
    return Ok(Fragment(map[Parameters := p3], None));
  }
}

/** lib/artifacts/lambda.js: the Lambda function resource and the rules that
    clamp or default its timeout, memory size, runtime and handler. */
module Lambda {
  import opened Wrappers
  import opened Json
  import opened Model

  const DefaultTimeout := 60
  const MaxTimeout := 900
  const DefaultMemorySize := 128
  const MaxMemorySize := 3008
  const DefaultRuntime := "nodejs10.x"
  const ValidRuntimes: seq<string> := ["nodejs8.10", "nodejs10.x"]

  /** `setLambdaTimeout`: a timeout in (0, 900] is kept, a larger one is cut to
      900, anything else (absent, zero, negative) becomes the default 60. */
  function SetLambdaTimeout(timeout: Option<int>): (r: int)
    ensures 0 < r <= MaxTimeout
    ensures timeout.Some? && 0 < timeout.value <= MaxTimeout ==> r == timeout.value
    ensures timeout.Some? && timeout.value > MaxTimeout ==> r == MaxTimeout
    ensures timeout.None? || timeout.value <= 0 ==> r == DefaultTimeout
  {
    if timeout.Some? && timeout.value <= MaxTimeout && timeout.value > 0 then timeout.value
    else if timeout.Some? && timeout.value > MaxTimeout then MaxTimeout
    else DefaultTimeout
  }

  /** Feeding a clamped timeout back in changes nothing. */
  lemma TimeoutIdempotent(timeout: Option<int>)
    ensures SetLambdaTimeout(Some(SetLambdaTimeout(timeout))) == SetLambdaTimeout(timeout)
  {
  }

  /** `setLambdaMemorySize`: within [128, 3008] the size is rounded down to a
      multiple of 64, above it is cut to 3008, otherwise it is 128. */
  function SetLambdaMemorySize(memorySize: Option<int>): (r: int)
    ensures DefaultMemorySize <= r <= MaxMemorySize && r % 64 == 0
    ensures memorySize.Some? && DefaultMemorySize <= memorySize.value <= MaxMemorySize ==>
      r <= memorySize.value < r + 64
    ensures memorySize.Some? && memorySize.value > MaxMemorySize ==> r == MaxMemorySize
    ensures memorySize.None? || memorySize.value < DefaultMemorySize ==> r == DefaultMemorySize
  {
    if memorySize.Some? && memorySize.value >= DefaultMemorySize && memorySize.value <= MaxMemorySize then
      memorySize.value - memorySize.value % 64
    else if memorySize.Some? && memorySize.value > MaxMemorySize then MaxMemorySize
    else DefaultMemorySize
  }

  /** The memory size chosen is the largest allowed size not above the request. */
  lemma {:induction false} MemorySizeIsLargestBelow(m: int, s: int)
    requires DefaultMemorySize <= m
    requires DefaultMemorySize <= s <= MaxMemorySize && s % 64 == 0 && s <= m
    ensures s <= SetLambdaMemorySize(Some(m))
  {
  }

  /** A size the rules produce is left unchanged by them. */
  lemma MemorySizeIdempotent(memorySize: Option<int>)
    ensures SetLambdaMemorySize(Some(SetLambdaMemorySize(memorySize))) == SetLambdaMemorySize(memorySize)
  {
  }

  /** `setLambdaRuntine`: the default runtime when none is given, otherwise one of the two supported runtimes. */
  function SetLambdaRuntime(runtime: string): (r: Result<string>)
    ensures r.Ok? <==> runtime == "" || runtime in ValidRuntimes
    ensures r.Ok? ==> r.value in ValidRuntimes
    ensures r.Ok? && runtime != "" ==> r.value == runtime
    ensures runtime == "" ==> r == Ok(DefaultRuntime)
    ensures r.Err? ==> r.error == Failure("Invalid AWS Lambda node.js runtime " + runtime)
  {
    if runtime == "" then Ok(DefaultRuntime)
    else if runtime !in ValidRuntimes then Err(Failure("Invalid AWS Lambda node.js runtime " + runtime))
    else Ok(runtime)
  }

  /** `setLambdaHandler`: a given handler verbatim, otherwise `function.fn` in the caller's directory. */
  function SetLambdaHandler(handler: string, callerDir: string): (r: string)
    ensures handler != "" ==> r == handler
    ensures handler == "" ==> r == callerDir + "/function.fn"
  {
    if handler == "" then callerDir + "/function.fn" else handler
  }

  /** The deployment package: `Ref(CodeS3Bucket)` and key `Join([Ref(CodeS3Prefix), Ref(GitSha), '.zip'])` */
  const CodeLocation: Json :=
    JObj(Empty
      .With("S3Bucket", Ref("CodeS3Bucket"))
      .With("S3Key", Join("", [Ref("CodeS3Prefix"), Ref("GitSha"), JStr(".zip")])))

  /** `{Variables: {}}` */
  const EmptyEnvironment: Json := JObj(Empty.With("Variables", JObj(Empty)))

  /** The fragment `buildLambda` returns when the runtime is accepted: one
      `AWS::Lambda::Function` resource keyed by the function name, whose
      properties are the fixed ones then the four chosen settings. */
  predicate LambdaBuilt(f: Fragment, options: Options, env: Env) {
    && f.sections.Keys == {Resources} && f.policies.None?
    && f.sections[Resources].keys == [options.name]
    && var fn := f.sections[Resources].Get(options.name);
       && fn.Some?
       && Lookup(fn.value, "Type") == Some(JStr("AWS::Lambda::Function"))
       && Props(fn.value).Some? && Props(fn.value).value.JObj?
       && Props(fn.value).value.obj.keys
          == ["Code", "Role", "Description", "Environment", "Timeout", "MemorySize", "Runtime", "Handler"]
       && Prop(fn.value, "Code") == Some(CodeLocation)
       && Prop(fn.value, "Role") == Some(RoleSelection)
       && Prop(fn.value, "Description") == Some(StackNameRef)
       && Prop(fn.value, "Environment") == Some(EmptyEnvironment)
       && Prop(fn.value, "Timeout") == Some(JNum(SetLambdaTimeout(options.timeout)))
       && Prop(fn.value, "MemorySize") == Some(JNum(SetLambdaMemorySize(options.memorySize)))
       && SetLambdaRuntime(options.runtime).Ok?
       && Prop(fn.value, "Runtime") == Some(JStr(SetLambdaRuntime(options.runtime).value))
       && Prop(fn.value, "Handler") == Some(JStr(SetLambdaHandler(options.handler, env.callerDir)))
  }

  /** `buildLambda`: one `AWS::Lambda::Function` resource keyed by the function
      name, the four settings assigned one by one after the fixed properties. */
  method BuildLambda(options: Options, env: Env) returns (r: Result<Fragment>)
    ensures r.Err? <==> SetLambdaRuntime(options.runtime).Err?
    ensures r.Err? ==> r.error == SetLambdaRuntime(options.runtime).error
    ensures r.Ok? ==> LambdaBuilt(r.value, options, env)
  {
    // The four settings are assigned to keys the literal above does not have,
    // so each assignment appends its key.
    var props := Empty
      .With("Code", CodeLocation)
      .With("Role", RoleSelection)
      .With("Description", StackNameRef)
      .With("Environment", EmptyEnvironment);
    props := props.With("Timeout", JNum(SetLambdaTimeout(options.timeout)));
    props := props.With("MemorySize", JNum(SetLambdaMemorySize(options.memorySize)));
    var runtime :- SetLambdaRuntime(options.runtime);
    props := props.With("Runtime", JStr(runtime));
    props := props.With("Handler", JStr(SetLambdaHandler(options.handler, env.callerDir)));
    PropertiesInOrder(CodeLocation, RoleSelection, StackNameRef, EmptyEnvironment,
      JNum(SetLambdaTimeout(options.timeout)), JNum(SetLambdaMemorySize(options.memorySize)),
      JStr(runtime), JStr(SetLambdaHandler(options.handler, env.callerDir)));
    var fn := JObj(Empty.With("Type", JStr("AWS::Lambda::Function")).With("Properties", JObj(props)));
    return Ok(Fragment(map[Resources := Empty.With(options.name, fn)], None));
  }

  /** The function's properties, written in this order, are listed in it and
      each holds its own value. */
  lemma PropertiesInOrder(code: Json, role: Json, description: Json, environment: Json,
                          timeout: Json, memorySize: Json, runtime: Json, handler: Json)
    ensures
      var props := Empty.With("Code", code).With("Role", role).With("Description", description)
        .With("Environment", environment).With("Timeout", timeout).With("MemorySize", memorySize)
        .With("Runtime", runtime).With("Handler", handler);
      && props.keys == ["Code", "Role", "Description", "Environment", "Timeout", "MemorySize", "Runtime", "Handler"]
      && props.Get("Code") == Some(code) && props.Get("Role") == Some(role)
      && props.Get("Description") == Some(description) && props.Get("Environment") == Some(environment)
      && props.Get("Timeout") == Some(timeout) && props.Get("MemorySize") == Some(memorySize)
      && props.Get("Runtime") == Some(runtime) && props.Get("Handler") == Some(handler)
  {
  }
}

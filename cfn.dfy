/** lib/cfn.js, `buildFunction` up to `compileFunction`: the name check, the
    four builders every function gets, and the selection of the trigger and
    destination builders from the keys of `eventSources` and `destinations`. */
module Cfn {
  import opened Wrappers
  import opened Json
  import opened Model
  import Params = Parameters
  import Alarm
  import Lambda
  import Roles
  import CloudWatch
  import Sns
  import Webhook
  import Destination
  import Compile
  import Dispatch
  import Finish

  /** The nine fragments `buildFunction` passes to `compileFunction`, in
      argument order. A builder that was not selected leaves `{}`; the SNS
      destination builder may leave `undefined` (None). */
  datatype Fragments = Fragments(
    parameters: Fragment,
    role: Fragment,
    alarms: Fragment,
    lambda: Fragment,
    cloudwatchEvent: Fragment,
    schedule: Fragment,
    sns: Fragment,
    webhook: Fragment,
    snsDestination: Option<Fragment>)

  /** The argument list of the `compileFunction` call */
  function Arguments(f: Fragments): (args: seq<Option<Fragment>>)
    ensures |args| == 9
    ensures forall i :: 0 <= i < 8 ==> args[i].Some?
    ensures args[8] == f.snsDestination
  {
    [Some(f.parameters), Some(f.role), Some(f.alarms), Some(f.lambda), Some(f.cloudwatchEvent),
     Some(f.schedule), Some(f.sns), Some(f.webhook), f.snsDestination]
  }

  // ----- event sources -----

  /** The keys of `options.eventSources`, in iteration order; none when absent */
  function EventSourceKeys(options: Options): seq<string> {
    if options.eventSources.Some? then options.eventSources.value.keys else []
  }

  /** Handling event-source key `k` throws: its builder rejects the options,
      or the key is none of the four known ones. */
  predicate EventSourceFails(options: Options, k: string) {
    if k == "cloudwatchEvent" then CloudWatch.ValidateCloudWatchEvent("cloudwatchEvent", options.eventSources).Some?
    else if k == "schedule" then CloudWatch.ValidateCloudWatchEvent("schedule", options.eventSources).Some?
    else if k == "sns" then false
    else if k == "webhook" then Webhook.WebhookError(options).Some?
    else true
  }

  /** What handling event-source key `k` throws */
  function EventSourceError(options: Options, k: string): Error
    requires EventSourceFails(options, k)
  {
    if k == "cloudwatchEvent" then CloudWatch.ValidateCloudWatchEvent("cloudwatchEvent", options.eventSources).value
    else if k == "schedule" then CloudWatch.ValidateCloudWatchEvent("schedule", options.eventSources).value
    else if k == "webhook" then Webhook.WebhookError(options).value
    else Failure("Unknown event source specified: " + k)
  }

  /** The `i`-th event-source key is the first whose handling throws. */
  predicate FirstEventSourceFailure(options: Options, i: int) {
    var keys := EventSourceKeys(options);
    0 <= i < |keys| && EventSourceFails(options, keys[i])
    && forall j :: 0 <= j < i ==> !EventSourceFails(options, keys[j])
  }

  /** The webhook fragment `buildWebhookEvent` returns for valid options */
  function WebhookFragment(options: Options, env: Env): Fragment
    requires Webhook.WebhookError(options).None?
  {
    Fragment(map[Resources := Webhook.WebhookResources(options, env), Outputs := Webhook.WebhookOutputs(options)], None)
  }

  /** The four trigger fragments */
  datatype Triggers = Triggers(cloudwatchEvent: Fragment, schedule: Fragment, sns: Fragment, webhook: Fragment)

  /** The trigger fragments once the keys `keys` have been handled without
      error: each known key selects exactly its builder, and SNS is also the
      default when `eventSources` is absent. An `eventSources` object without
      keys selects nothing at all. */
  predicate Selected(t: Triggers, options: Options, env: Env, keys: seq<string>) {
    && (if "cloudwatchEvent" in keys then CloudWatch.EventBuilt(t.cloudwatchEvent, options, "cloudwatchEvent")
        else t.cloudwatchEvent == NoFragment)
    && (if "schedule" in keys then CloudWatch.EventBuilt(t.schedule, options, "schedule")
        else t.schedule == NoFragment)
    && t.sns == (if options.eventSources.None? || "sns" in keys then Sns.BuildSnsEvent(options) else NoFragment)
    && (if "webhook" in keys then Webhook.WebhookError(options).None? && t.webhook == WebhookFragment(options, env)
        else t.webhook == NoFragment)
  }

  /** Handling a known key fills its own slot and leaves the others as they were. */
  lemma SelectCloudwatchEvent(t: Triggers, f: Fragment, options: Options, env: Env, seen: seq<string>)
    requires Selected(t, options, env, seen) && CloudWatch.EventBuilt(f, options, "cloudwatchEvent")
    ensures Selected(t.(cloudwatchEvent := f), options, env, seen + ["cloudwatchEvent"])
  {
    SnocMembers(seen, "cloudwatchEvent");
  }

  lemma SelectSchedule(t: Triggers, f: Fragment, options: Options, env: Env, seen: seq<string>)
    requires Selected(t, options, env, seen) && CloudWatch.EventBuilt(f, options, "schedule")
    ensures Selected(t.(schedule := f), options, env, seen + ["schedule"])
  {
    SnocMembers(seen, "schedule");
  }

  lemma SelectSns(t: Triggers, options: Options, env: Env, seen: seq<string>)
    requires Selected(t, options, env, seen)
    ensures Selected(t.(sns := Sns.BuildSnsEvent(options)), options, env, seen + ["sns"])
  {
    SnocMembers(seen, "sns");
  }

  lemma SelectWebhook(t: Triggers, options: Options, env: Env, seen: seq<string>)
    requires Selected(t, options, env, seen) && Webhook.WebhookError(options).None?
    ensures Selected(t.(webhook := WebhookFragment(options, env)), options, env, seen + ["webhook"])
  {
    SnocMembers(seen, "webhook");
  }

  /** Which of the four known keys have been handled after one more key */
  lemma SnocMembers(seen: seq<string>, k: string)
    ensures ("cloudwatchEvent" in seen + [k]) == ("cloudwatchEvent" in seen || k == "cloudwatchEvent")
    ensures ("schedule" in seen + [k]) == ("schedule" in seen || k == "schedule")
    ensures ("sns" in seen + [k]) == ("sns" in seen || k == "sns")
    ensures ("webhook" in seen + [k]) == ("webhook" in seen || k == "webhook")
  {
  }

  /** The `cloudwatchEvent` and `schedule` cases of the `switch` */
  method HandleRule(options: Options, env: Env, k: string, t: Triggers, ghost seen: seq<string>)
    returns (r: Result<Triggers>)
    requires k == "cloudwatchEvent" || k == "schedule"
    requires Selected(t, options, env, seen)
    ensures EventSourceFails(options, k) ==> r == Err(EventSourceError(options, k))
    ensures !EventSourceFails(options, k) ==> r.Ok? && Selected(r.value, options, env, seen + [k])
  {
    CloudWatch.KnownTypesAllowed();
    var built := CloudWatch.BuildCloudwatchEvent(options, k);
    if built.Err? {
      return Err(built.error);
    }
    if k == "cloudwatchEvent" {
      SelectCloudwatchEvent(t, built.value, options, env, seen);
      return Ok(t.(cloudwatchEvent := built.value));
    } else {
      SelectSchedule(t, built.value, options, env, seen);
      return Ok(t.(schedule := built.value));
    }
  }

  /** The `webhook` case of the `switch` */
  method HandleWebhook(options: Options, env: Env, t: Triggers, ghost seen: seq<string>)
    returns (r: Result<Triggers>)
    requires Selected(t, options, env, seen)
    ensures EventSourceFails(options, "webhook") ==> r == Err(EventSourceError(options, "webhook"))
    ensures !EventSourceFails(options, "webhook") ==> r.Ok? && Selected(r.value, options, env, seen + ["webhook"])
  {
    var built := Webhook.BuildWebhookEvent(options, env);
    if built.Err? {
      return Err(built.error);
    }
    SelectWebhook(t, options, env, seen);
    return Ok(t.(webhook := built.value));
  }

  /** One pass of the `switch` over event-source key `k`: the selected
      builder's fragment replaces the slot, or the build throws. */
  method HandleEventSource(options: Options, env: Env, k: string, t: Triggers, ghost seen: seq<string>)
    returns (r: Result<Triggers>)
    requires Selected(t, options, env, seen)
    ensures EventSourceFails(options, k) ==> r == Err(EventSourceError(options, k))
    ensures !EventSourceFails(options, k) ==> r.Ok? && Selected(r.value, options, env, seen + [k])
  {
    if k == "cloudwatchEvent" || k == "schedule" {
      r := HandleRule(options, env, k, t, seen);
    } else if k == "sns" {
      SelectSns(t, options, env, seen);
      r := Ok(t.(sns := Sns.BuildSnsEvent(options)));
    } else if k == "webhook" {
      r := HandleWebhook(options, env, t, seen);
    } else {
      r := Err(Failure("Unknown event source specified: " + k));
    }
  }

  /** The pass over the `i`-th key, once the keys before it were handled */
  method HandleEventSourceAt(options: Options, env: Env, keys: seq<string>, i: nat, t: Triggers)
    returns (r: Result<Triggers>)
    requires i < |keys| && Selected(t, options, env, keys[..i])
    ensures EventSourceFails(options, keys[i]) ==> r == Err(EventSourceError(options, keys[i]))
    ensures !EventSourceFails(options, keys[i]) ==> r.Ok? && Selected(r.value, options, env, keys[..i + 1])
  {
    r := HandleEventSource(options, env, keys[i], t, keys[..i]);
    assert keys[..i + 1] == keys[..i] + [keys[i]];
  }

  /** The default trigger and the `for...in` over `options.eventSources`
      (lib/cfn.js:30-62): the first key whose handling throws ends the build. */
  method SelectEventSources(options: Options, env: Env) returns (r: Result<Triggers>)
    ensures r.Err? <==> EventSourcesFail(options)
    ensures r.Err? ==> EventSourcesError(options, r.error)
    ensures r.Ok? ==> Selected(r.value, options, env, EventSourceKeys(options))
  {
    var triggers := Triggers(NoFragment, NoFragment, NoFragment, NoFragment);
    // `options.eventSources !== {}` compares two distinct objects: it is always true.
    var hasEventSources := options.eventSources.Some?;
    if !hasEventSources {
      triggers := triggers.(sns := Sns.BuildSnsEvent(options));
    }
    var keys := EventSourceKeys(options);
    for i := 0 to |keys|
      invariant forall j :: 0 <= j < i ==> !EventSourceFails(options, keys[j])
      invariant Selected(triggers, options, env, keys[..i])
    {
      var handled := HandleEventSourceAt(options, env, keys, i, triggers);
      if handled.Err? {
        assert FirstEventSourceFailure(options, i);
        return handled;
      }
      triggers := handled.value;
    }
    assert keys[..|keys|] == keys;
    return Ok(triggers);
  }

  // ----- destinations -----

  /** The keys of `options.destinations`, in iteration order; none when absent */
  function DestinationKeys(options: Options): seq<string> {
    if options.destinations.Some? then options.destinations.value.keys else []
  }

  /** Handling destination key `k` throws: an SNS destination cannot be read,
      or the key is not `sns`. */
  predicate DestinationFails(options: Options, k: string) {
    if k == "sns" then
      Destination.SnsDestinationsRequested(options)
      && !Destination.Readable(Destination.SnsDestinations(options), |Destination.SnsDestinations(options).keys|)
    else true
  }

  /** The `i`-th destination key is the first whose handling throws. */
  predicate FirstDestinationFailure(options: Options, i: int) {
    var keys := DestinationKeys(options);
    0 <= i < |keys| && DestinationFails(options, keys[i])
    && forall j :: 0 <= j < i ==> !DestinationFails(options, keys[j])
  }

  /** `e` is what handling destination key `k` throws: the error reading the
      first unreadable SNS destination, or the unknown key. */
  ghost predicate DestinationError(options: Options, k: string, e: Error) {
    if k != "sns" then e == Failure("Unknown destination specified: " + k)
    else
      && Destination.SnsDestinationsRequested(options)
      && var sns := Destination.SnsDestinations(options);
         exists i :: 0 <= i < |sns.keys| && Destination.Readable(sns, i) && Err(e) == Destination.Description(sns, i)
  }

  /** The destination argument once the keys `keys` have been handled without
      error: `{}` unless `sns` was among them; then `undefined` when
      `destinations.sns` is falsy, and the destination fragment otherwise. */
  predicate DestinationSelected(d: Option<Fragment>, options: Options, keys: seq<string>) {
    if "sns" !in keys then d == Some(NoFragment)
    else if !Destination.SnsDestinationsRequested(options) then d.None?
    else
      var sns := Destination.SnsDestinations(options);
      Destination.Readable(sns, |sns.keys|) && d == Some(Destination.DestinationFragment(options))
  }

  /** The `for...in` over `options.destinations` (lib/cfn.js:64-75) */
  method SelectDestinations(options: Options) returns (r: Result<Option<Fragment>>)
    ensures r.Err? <==> DestinationsFail(options)
    ensures r.Err? ==> DestinationsError(options, r.error)
    ensures r.Ok? ==> DestinationSelected(r.value, options, DestinationKeys(options))
  {
    var destination := Some(NoFragment);
    var keys := DestinationKeys(options);
    for i := 0 to |keys|
      invariant forall j :: 0 <= j < i ==> !DestinationFails(options, keys[j])
      invariant DestinationSelected(destination, options, keys[..i])
    {
      if keys[i] == "sns" {
        var built := Destination.BuildSnsDestination(options);
        if built.Err? {
          assert FirstDestinationFailure(options, i);
          return Err(built.error);
        }
        destination := built.value;
      } else {
        assert FirstDestinationFailure(options, i);
        return Err(Failure("Unknown destination specified: " + keys[i]));
      }
      assert keys[..i + 1] == keys[..i] + [keys[i]];
    }
    assert keys[..|keys|] == keys;
    return Ok(destination);
  }

  // ----- the builder stage -----

  /** Handling some event-source key throws. */
  predicate EventSourcesFail(options: Options) {
    exists i :: 0 <= i < |EventSourceKeys(options)| && EventSourceFails(options, EventSourceKeys(options)[i])
  }

  /** `e` is what the first failing event-source key throws. */
  ghost predicate EventSourcesError(options: Options, e: Error) {
    exists i :: FirstEventSourceFailure(options, i) && e == EventSourceError(options, EventSourceKeys(options)[i])
  }

  /** Handling some destination key throws. */
  predicate DestinationsFail(options: Options) {
    exists i :: 0 <= i < |DestinationKeys(options)| && DestinationFails(options, DestinationKeys(options)[i])
  }

  /** `e` is what the first failing destination key throws. */
  ghost predicate DestinationsError(options: Options, e: Error) {
    exists i :: FirstDestinationFailure(options, i) && DestinationError(options, DestinationKeys(options)[i], e)
  }

  /** A step every function takes throws: the name check, the parameters,
      the runtime or the role's policy statements. */
  predicate CommonFails(options: Options) {
    || options.name == ""
    || Params.ParametersFail(options)
    || Lambda.SetLambdaRuntime(options.runtime).Err?
    || Roles.StatementsFail(options)
  }

  /** Some step before `compileFunction` throws. */
  predicate StageFails(options: Options) {
    CommonFails(options) || EventSourcesFail(options) || DestinationsFail(options)
  }

  /** `e` is what the first failing step before `compileFunction` throws, the
      steps taken in source order. */
  ghost predicate StageError(options: Options, e: Error) {
    if CommonFails(options) then CommonError(options, e)
    else if EventSourcesFail(options) then EventSourcesError(options, e)
    else DestinationsError(options, e)
  }

  /** `e` is what the first failing step every function takes throws. */
  ghost predicate CommonError(options: Options, e: Error)
    requires CommonFails(options)
  {
    if options.name == "" then e == Failure("Function name is required")
    else if Params.ParametersFail(options) then Params.ParametersError(options, e)
    else if Lambda.SetLambdaRuntime(options.runtime).Err? then e == Lambda.SetLambdaRuntime(options.runtime).error
    else e == Roles.StatementValidation(options.statements.value).value
  }

  /** The role fragment `buildRole(options)` returns */
  predicate RoleBuilt(f: Fragment, options: Options) {
    && f.sections.Keys == {Resources} && f.policies.None?
    && f.sections[Resources].keys == [FunctionRoleName]
    && f.sections[Resources].Get(FunctionRoleName)
       == Some(Roles.RoleResource(Roles.TrustStatements(Roles.TrustedServices(options)), Roles.RolePolicies(options)))
  }

  const FunctionRoleName: string := "LambdaCfnRole"

  /** The nine fragments as the builders return them for valid options */
  ghost predicate Built(f: Fragments, options: Options, env: Env) {
    && CommonBuilt(Common(f.parameters, f.role, f.alarms, f.lambda), options, env)
    && Selected(Triggers(f.cloudwatchEvent, f.schedule, f.sns, f.webhook), options, env, EventSourceKeys(options))
    && DestinationSelected(f.snsDestination, options, DestinationKeys(options))
  }

  /** The fragments of the four builders every function gets */
  datatype Common = Common(parameters: Fragment, role: Fragment, alarms: Fragment, lambda: Fragment)

  /** What the four builders every function gets return */
  ghost predicate CommonBuilt(c: Common, options: Options, env: Env) {
    && Params.ParametersBuilt(c.parameters, options)
    && RoleBuilt(c.role, options)
    && Alarm.AlarmsBuilt(c.alarms, options)
    && Lambda.LambdaBuilt(c.lambda, options, env)
  }

  /** The name check and the four builders every function gets (lib/cfn.js:22-28) */
  method BuildCommon(options: Options, env: Env) returns (r: Result<Common>)
    ensures r.Err? <==> CommonFails(options)
    ensures r.Err? ==> CommonError(options, r.error)
    ensures r.Ok? ==> CommonBuilt(r.value, options, env)
  {
    if options.name == "" {
      return Err(Failure("Function name is required"));
    }
    var parameters := Params.BuildParameters(options);
    if parameters.Err? {
      return Err(parameters.error);
    }
    var alarms := Alarm.BuildServiceAlarms(options);
    var lambda := Lambda.BuildLambda(options, env);
    if lambda.Err? {
      return Err(lambda.error);
    }
    var role := Roles.BuildRole(options, FunctionRoleName);
    if role.Err? {
      return Err(role.error);
    }
    return Ok(Common(parameters.value, role.value, alarms, lambda.value));
  }

  /** `buildFunction` up to `compileFunction` (lib/cfn.js:22-75): the name
      check, the four builders every function gets, then the trigger and
      destination builders the keys select. */
  method BuildFragments(options: Options, env: Env) returns (r: Result<Fragments>)
    ensures r.Err? <==> StageFails(options)
    ensures r.Err? ==> StageError(options, r.error)
    ensures r.Ok? ==> Built(r.value, options, env)
  {
    var common := BuildCommon(options, env);
    if common.Err? {
      return Err(common.error);
    }
    var triggers := SelectEventSources(options, env);
    if triggers.Err? {
      return Err(triggers.error);
    }
    var destination := SelectDestinations(options);
    if destination.Err? {
      return Err(destination.error);
    }
    var c, t := common.value, triggers.value;
    return Ok(Fragments(c.parameters, c.role, c.alarms, c.lambda,
      t.cloudwatchEvent, t.schedule, t.sns, t.webhook, destination.value));
  }

  // ----- the whole build -----

  /** What `buildFunction` makes of the fragments: the merge, dispatch
      support, then the passes after it. */
  function Assemble(args: seq<Option<Fragment>>, options: Options): Result<Compile.Doc> {
    var compiled :- Compile.Compile(args);
    var dispatched :- Dispatch.DispatchSupport(compiled, options);
    Finish.Finish(dispatched, options.name)
  }

  /** `compileFunction`, `addDispatchSupport` and the passes after it
      (lib/cfn.js:77-134), on a new template */
  method AssembleTemplate(args: seq<Option<Fragment>>, options: Options) returns (r: Result<Compile.Template>)
    ensures Assemble(args, options) == if r.Ok? then Ok(r.value.Value()) else Err(r.error)
    ensures r.Ok? ==> fresh(r.value) && r.value.formatVersion.None? && r.value.description.None?
  {
    var compiled := Compile.CompileFunction(args);
    if compiled.Err? {
      return Err(compiled.error);
    }
    var template := compiled.value;
    var err := Dispatch.AddDispatchSupport(template, options);
    if err.Some? {
      return Err(err.value);
    }
    err := Finish.FinishTemplate(template, options.name);
    if err.Some? {
      return Err(err.value);
    }
    return Ok(template);
  }

  /** `buildFunction(options)` (lib/cfn.js:21-135): a step before the merge
      throws as the stage does; otherwise the template is the assembly of the
      fragments the builders returned, or the assembly's error. */
  method BuildFunction(options: Options, env: Env) returns (r: Result<Compile.Template>, ghost f: Fragments)
    ensures StageFails(options) ==> r.Err? && StageError(options, r.error)
    ensures !StageFails(options) ==>
      && Built(f, options, env)
      && Assemble(Arguments(f), options) == if r.Ok? then Ok(r.value.Value()) else Err(r.error)
    ensures r.Ok? ==> fresh(r.value) && r.value.formatVersion.None? && r.value.description.None?
  {
    var fragments := BuildFragments(options, env);
    if fragments.Err? {
      return Err(fragments.error), Fragments(NoFragment, NoFragment, NoFragment, NoFragment, NoFragment,
        NoFragment, NoFragment, NoFragment, None);
    }
    f := fragments.value;
    r := AssembleTemplate(Arguments(fragments.value), options);
  }

  /** `buildFunctionTemplate(options)` (lib/cfn.js:13-18): the function's
      template with the format version and a description naming the function */
  method BuildFunctionTemplate(options: Options, env: Env) returns (r: Result<Compile.Template>, ghost f: Fragments)
    ensures StageFails(options) ==> r.Err? && StageError(options, r.error)
    ensures !StageFails(options) ==>
      && Built(f, options, env)
      && Assemble(Arguments(f), options) == if r.Ok? then Ok(r.value.Value()) else Err(r.error)
    ensures r.Ok? ==> fresh(r.value)
    ensures r.Ok? ==> r.value.formatVersion == Some("2010-09-09")
    ensures r.Ok? ==> r.value.description == Some(options.name + " lambda-cfn function")
  {
    r, f := BuildFunction(options, env);
    if r.Ok? {
      r.value.Describe("2010-09-09", options.name + " lambda-cfn function");
    }
  }

  // ----- what the whole build guarantees -----

  /** Dispatch support never fails after a successful merge of at least one
      fragment: every collection then exists, and the statements were
      already accepted by `buildRole`. */
  lemma DispatchAlwaysApplies(args: seq<Option<Fragment>>, options: Options)
    requires args != [] && Compile.Compile(args).Ok? && !Roles.StatementsFail(options)
    ensures Dispatch.DispatchSupport(Compile.Compile(args).value, options).Ok?
  {
    Compile.CompileSpec(args);
    Dispatch.DispatchSupportSpec(Compile.Compile(args).value, options);
  }

  /** The eight fragments every function gets or selects carry no policies. */
  predicate NoTriggerPolicies(f: Fragments) {
    && f.parameters.policies.None? && f.role.policies.None? && f.alarms.policies.None?
    && f.lambda.policies.None? && f.cloudwatchEvent.policies.None? && f.schedule.policies.None?
    && f.sns.policies.None? && f.webhook.policies.None?
  }

  lemma BuiltCarriesNoTriggerPolicies(f: Fragments, options: Options, env: Env)
    requires Built(f, options, env)
    ensures NoTriggerPolicies(f)
  {
  }

  /** Only the SNS destination's policies reach the merged template. */
  lemma OnlyDestinationsCarryPolicies(f: Fragments)
    requires NoTriggerPolicies(f)
    ensures Compile.AllPolicies(Arguments(f)) ==
      if f.snsDestination.Some? then Compile.ValidPolicies(f.snsDestination.value) else []
  {
    var args := Arguments(f);
    var quiet := args[..8];
    assert quiet == [Some(f.parameters), Some(f.role), Some(f.alarms), Some(f.lambda),
      Some(f.cloudwatchEvent), Some(f.schedule), Some(f.sns), Some(f.webhook)];
    Compile.AllPoliciesNone(quiet);
    assert args[..|args| - 1] == quiet;
  }

  /** An SNS destination breaks the build: its policies reach the `Policies`
      loop, which looks for resources named `"0"` and `"1"`, so a function
      with at least one SNS destination builds only if some fragment
      supplies a resource named `"0"`. (`Built` gives both premises, the
      first by `BuiltCarriesNoTriggerPolicies`.) */
  lemma SnsDestinationsNeedResourceZero(f: Fragments, options: Options)
    requires NoTriggerPolicies(f) && DestinationSelected(f.snsDestination, options, DestinationKeys(options))
    requires "sns" in DestinationKeys(options) && Destination.SnsDestinationsRequested(options)
    requires |Destination.SnsDestinations(options).keys| > 0
    ensures Assemble(Arguments(f), options).Ok? ==> Compile.Supplied(Arguments(f), Resources, "0").Some?
  {
    OnlyDestinationsCarryPolicies(f);
    assert f.snsDestination == Some(Destination.DestinationFragment(options));
    PoliciesNeedResourceZero(Arguments(f), options);
  }

  /** Any policy among the merged fragments makes the `Policies` loop look up
      a resource named `"0"`: the build then succeeds only if a fragment
      supplies one. */
  lemma PoliciesNeedResourceZero(args: seq<Option<Fragment>>, options: Options)
    requires Compile.AllPolicies(args) != []
    ensures Assemble(args, options).Ok? ==> Compile.Supplied(args, Resources, "0").Some?
  {
    if Assemble(args, options).Ok? {
      Compile.CompilePolicies(args);
      var compiled := Compile.Compile(args).value;
      Compile.CompileSpec(args);
      Dispatch.WithDispatchSpec(compiled, Dispatch.DispatchRoleValue(options));
      var dispatched := Dispatch.DispatchSupport(compiled, options).value;
      Finish.PoliciesNeedIndexResources(dispatched, options.name);
      PutProperties(compiled.sections[Resources], Dispatch.DispatchRoleName, Dispatch.DispatchRoleValue(options).value);
      assert Compile.Existing(compiled, Resources).Get("0").Some?;
      Compile.UnionGet(args, Resources, "0");
    }
  }

  /** The value of each environment variable the finished function sees:
      a reference for every parameter the fragments declare and for the
      dispatch topic's, then the four stack globals, then the variables the
      fragments supply. */
  function ExpectedVariable(args: seq<Option<Fragment>>, k: string): Option<Json> {
    if k in Compile.AllKeys(args, Parameters) || k == "DispatchSnsArn" then Some(Ref(k))
    else if k in Finish.Globals then Some(Finish.Globals[k])
    else Compile.Supplied(args, Variables, k)
  }

  /** The template `addDispatchSupport` hands to the final passes, seen
      through the fragments: the resource of the fragment declaring `name`,
      every declared parameter plus `DispatchSnsArn`, every supplied variable. */
  lemma CompiledResource(args: seq<Option<Fragment>>, name: string, i: int)
    requires 0 <= i < |args| && args[i].Some? && name in Sec(args[i].value, Resources).keys
    requires Compile.Compile(args).Ok?
    ensures Compile.Existing(Compile.Compile(args).value, Resources).Get(name) == Sec(args[i].value, Resources).Get(name)
  {
    Compile.CompileSpec(args);
    Compile.SuppliedBy(args, Resources, name, i);
    Compile.UnionGet(args, Resources, name);
  }

  lemma DispatchedParameters(args: seq<Option<Fragment>>, options: Options)
    requires Compile.Compile(args).Ok? && Dispatch.DispatchSupport(Compile.Compile(args).value, options).Ok?
    ensures
      var params := Compile.Existing(Dispatch.DispatchSupport(Compile.Compile(args).value, options).value, Parameters);
      forall k :: k in params.keys <==> k in Compile.AllKeys(args, Parameters) || k == "DispatchSnsArn"
  {
    var compiled := Compile.Compile(args).value;
    Compile.CompileSpec(args);
    Compile.UnionKeys(args, Parameters);
    Dispatch.WithDispatchSpec(compiled, Dispatch.DispatchRoleValue(options));
    PutValid(compiled.sections[Parameters], "DispatchSnsArn", Dispatch.DispatchSnsArnParameter);
  }

  lemma DispatchedVariables(args: seq<Option<Fragment>>, options: Options)
    requires Compile.Compile(args).Ok? && Dispatch.DispatchSupport(Compile.Compile(args).value, options).Ok?
    ensures
      var vars := Compile.Existing(Dispatch.DispatchSupport(Compile.Compile(args).value, options).value, Variables);
      forall k :: vars.Get(k) == Compile.Supplied(args, Variables, k)
  {
    var compiled := Compile.Compile(args).value;
    Compile.CompileSpec(args);
    forall k ensures Compile.Union(args, Variables).Get(k) == Compile.Supplied(args, Variables, k) {
      Compile.UnionGet(args, Variables, k);
    }
    Dispatch.WithDispatchSpec(compiled, Dispatch.DispatchRoleValue(options));
  }

  /** The finished function resource's environment: whichever fragment
      declares the function (with an environment object), every parameter
      becomes a reference, then the globals, then the supplied variables. */
  lemma FunctionEnvironment(args: seq<Option<Fragment>>, options: Options, i: int)
    requires 0 <= i < |args| && args[i].Some? && options.name in Sec(args[i].value, Resources).keys
    requires options.name != Dispatch.DispatchRoleName
    requires Finish.EnvironmentOf(Sec(args[i].value, Resources).Get(options.name)).Some?
    requires Finish.EnvironmentOf(Sec(args[i].value, Resources).Get(options.name)).value.JObj?
    ensures Assemble(args, options).Ok? ==>
      var vars := Finish.EnvironmentVariables(Compile.Existing(Assemble(args, options).value, Resources).Get(options.name));
      && vars.Some? && vars.value.JObj?
      && forall k :: vars.value.obj.Get(k) == ExpectedVariable(args, k)
  {
    if Assemble(args, options).Ok? {
      var compiled := Compile.Compile(args).value;
      var dispatched := Dispatch.DispatchSupport(compiled, options).value;
      assert Assemble(args, options) == Finish.Finish(dispatched, options.name);
      CompiledResource(args, options.name, i);
      Dispatch.DispatchKeepsResources(compiled, options);
      Finish.FinishEnvironment(dispatched, options.name);
      InjectedAsExpected(args, options);
    }
  }

  lemma InjectedAsExpected(args: seq<Option<Fragment>>, options: Options)
    requires Compile.Compile(args).Ok? && Dispatch.DispatchSupport(Compile.Compile(args).value, options).Ok?
    ensures
      var injected := Finish.InjectedVariables(Dispatch.DispatchSupport(Compile.Compile(args).value, options).value);
      forall k :: injected.Get(k) == ExpectedVariable(args, k)
  {
    var dispatched := Dispatch.DispatchSupport(Compile.Compile(args).value, options).value;
    DispatchedParameters(args, options);
    DispatchedVariables(args, options);
    Finish.InjectedVariablesSpec(dispatched);
  }

  /** Without `eventSources` the function gets the SNS trigger and nothing
      else; an `eventSources` object with no keys is truthy and never equal
      to a fresh `{}`, so it gets no trigger at all. */
  lemma DefaultTrigger(f: Fragments, options: Options, env: Env)
    requires Built(f, options, env)
    ensures options.eventSources.None? ==>
      && f.sns == Sns.BuildSnsEvent(options)
      && f.cloudwatchEvent == NoFragment && f.schedule == NoFragment && f.webhook == NoFragment
    ensures options.eventSources.Some? && options.eventSources.value.keys == [] ==>
      && f.sns == NoFragment
      && f.cloudwatchEvent == NoFragment && f.schedule == NoFragment && f.webhook == NoFragment
  {
  }

  /** The number of parameters the finished template declares: every
      fragment's, plus `DispatchSnsArn` unless a fragment already declares it. */
  function ParameterCount(args: seq<Option<Fragment>>): nat {
    var declared := Compile.AllKeys(args, Parameters);
    |declared| + if "DispatchSnsArn" in declared then 0 else 1
  }

  /** The 60-parameter ceiling counts the dispatch parameter and those of the
      builders along with the caller's: a merged template succeeds only under
      it, and fails with the ceiling's error above it. */
  lemma ParameterCeiling(args: seq<Option<Fragment>>, options: Options)
    requires Compile.Compile(args).Ok? && Dispatch.DispatchSupport(Compile.Compile(args).value, options).Ok?
    ensures Assemble(args, options).Ok? ==> ParameterCount(args) <= Finish.MaxParameters
    ensures ParameterCount(args) > Finish.MaxParameters ==>
      Assemble(args, options) == Err(Failure("More than 60 parameters specified"))
  {
    var compiled := Compile.Compile(args).value;
    var dispatched := Dispatch.DispatchSupport(compiled, options).value;
    Compile.CompileSpec(args);
    Compile.UnionKeys(args, Parameters);
    Dispatch.WithDispatchSpec(compiled, Dispatch.DispatchRoleValue(options));
    PutProperties(compiled.sections[Parameters], "DispatchSnsArn", Dispatch.DispatchSnsArnParameter);
    assert |dispatched.sections[Parameters].keys| == ParameterCount(args);
    Finish.FinishCeiling(dispatched, options.name);
  }
}

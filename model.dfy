/** The inputs of the template compiler and the fragments its builders return. */
module Model {
  import opened Wrappers
  import opened Json

  /** The function options object. A falsy string option ('' or absent) is the
      empty string; an absent object or number option is None. */
  datatype Options = Options(
    name: string,
    parameters: Option<Dict>,
    runtime: string,
    handler: string,
    timeout: Option<int>,
    memorySize: Option<int>,
    threshold: Option<int>,
    evaluationPeriods: Option<int>,
    period: Option<int>,
    statements: Option<Json>,
    eventSources: Option<Dict>,
    destinations: Option<Dict>)

  /** Options with only a name, as in `{name: 'test'}` */
  function Named(name: string): Options {
    Options(name, None, "", "", None, None, None, None, None, None, None, None)
  }

  /** The ambient state the source reads: `process.env.NODE_ENV == 'test'`,
      the base-36 digits drawn from `Math.random()`, and the directory of the
      module that loaded the library (`module.parent.parent.parent`). */
  datatype Env = Env(testMode: bool, deploymentRandom: string, callerDir: string)

  /** The seven collections a template fragment may carry. */
  datatype Section = Metadata | Parameters | Mappings | Conditions | Resources | Outputs | Variables

  /** The order in which `compileFunction` merges the collections of each argument. */
  const MergeOrder: seq<Section> := [Metadata, Parameters, Mappings, Conditions, Resources, Outputs, Variables]

  function SectionName(s: Section): string {
    match s
    case Metadata => "Metadata"
    case Parameters => "Parameters"
    case Mappings => "Mappings"
    case Conditions => "Conditions"
    case Resources => "Resources"
    case Outputs => "Outputs"
    case Variables => "Variables"
  }

  /** What a builder returns: some of the seven collections and possibly a `Policies` value. */
  datatype Fragment = Fragment(sections: map<Section, Dict>, policies: Option<Json>)

  /** The `{}` a builder that was not selected leaves in place */
  const NoFragment: Fragment := Fragment(map[], None)

  /** A collection of a fragment, empty when the fragment does not carry it. */
  function Sec(f: Fragment, s: Section): Dict {
    if s in f.sections then f.sections[s] else Empty
  }

  // Property paths used throughout the builders

  /** `v.Properties` */
  function Props(v: Json): Option<Json> {
    Lookup(v, "Properties")
  }

  /** `v.Properties.k` */
  function Prop(v: Json, k: string): Option<Json> {
    var p := Props(v);
    if p.Some? then Lookup(p.value, k) else None
  }

  /** The `If(HasDispatchSnsArn, ...)` role selection used by the function and its rules */
  const RoleSelection: Json :=
    If("HasDispatchSnsArn", GetAtt("LambdaCfnDispatchRole", "Arn"), GetAtt("LambdaCfnRole", "Arn"))

  // cloudfriend pseudo parameters (cf.stackName, cf.region, cf.accountId, cf.stackId)
  const StackNameRef: Json := Ref("AWS::StackName")
  const RegionRef: Json := Ref("AWS::Region")
  const AccountIdRef: Json := Ref("AWS::AccountId")
  const StackIdRef: Json := Ref("AWS::StackId")
}

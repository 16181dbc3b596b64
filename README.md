# lambda-cfn template compiler, modelled in Dafny

This project models the part of lambda-cfn that turns one function-options
object into a CloudFormation template. It has three stages.

1. **Builders.** Each builder reads the options and returns a *fragment*: a
   record of named collections (Parameters, Resources, Outputs, Variables, …)
   and, for SNS destinations, a list of Policies.
   - parameters: validates the caller's parameters and adds the three build parameters;
   - lambda: the function resource, with its timeout, memory, runtime and handler clamped or defaulted;
   - alarm: the two Lambda alarms and the alarm topic;
   - roles: the IAM role and its policy statements;
   - cloudwatch: pattern and schedule rules;
   - sns: the default SNS trigger;
   - webhook: the API Gateway tree;
   - destination: SNS destinations.
2. **Merge.** `compileFunction` folds the nine fragments into one template.
   - The seven collections are disjoint unions: a key supplied twice is an error.
   - The Policies lists are concatenated.
3. **Passes in `buildFunction`.** These run on the merged template, in place:
   - dispatch support (a condition, a parameter and a second role);
   - the 60-parameter ceiling;
   - the injection of every parameter and four stack globals into the function's environment;
   - the removal of the two keys that are not CloudFormation.

How the model is laid out:

- **Values.** JSON values are the datatype `Json.Json`.
  - A JavaScript object is a `Json.Dict`: its keys in iteration order plus a map from key to value. Assignment keeps an existing key in place and appends a new one, as JavaScript does.
  - The cloudfriend intrinsics (`cf.ref`, `cf.getAtt`, `cf.join`, `cf.if`) are opaque constructors. Pseudo-parameters such as `cf.stackName` are `Ref("AWS::StackName")`.
- **Errors.** A thrown error is `Failure(message)`. A JavaScript runtime error (reading a property of `undefined`, calling `push` on a non-array) is `TypeError(message)`.
- **Ambient state.** Three values are read from outside the options. They become the parameter `Model.Env`:
  - the `NODE_ENV == 'test'` flag;
  - the random base-36 digits of the API deployment name;
  - the directory the handler path is crawled from.
- **Templates.** The template that `compileFunction` creates and `buildFunction` mutates is the class `Compile.Template`. Its methods are proved against functions on its value:
  - `Compile.Compile` for the merge;
  - `Dispatch.DispatchSupport` for `addDispatchSupport`;
  - `Finish.Finish` for the passes after it.
- **Builders.** Each builder that fills a fresh local object step by step is a method returning a fragment. The exception is `Sns.BuildSnsEvent`, a function: each of its assignments adds a new key to an empty object and nothing can fail, so the steps amount to one object literal.
- **Pure helpers.** The helpers that only compute are functions: the `setLambda*` rules, validation, `capitalizeFirst` and `splitOnComma`.

Files:

| file | contents |
|---|---|
| `wrappers.dfy` | `Option`, `Result` |
| `json.dfy` | the JSON values and objects |
| `text.dfy` | ASCII case mapping, substring search, decimal numerals, trimming |
| `utils.dfy` | `lib/utils.js` |
| `model.dfy` | the options, the ambient state, fragments and collection names |
| `parameters.dfy`, `lambda.dfy`, `alarm.dfy`, `roles.dfy`, `cloudwatch.dfy`, `sns.dfy`, `webhook.dfy`, `destination.dfy`, `dispatch.dfy` | `lib/artifacts/*.js` |
| `compile.dfy` | `compileFunction` and `mergeArgumentsTemplate` |
| `finish.dfy` | the passes after dispatch support |
| `cfn.dfy` | `buildFunction` and `buildFunctionTemplate` |

## Model

| member | source | states |
|---|---|---|
| Utils.CapitalizeFirst | lib/utils.js:1-3 | Keeps the length and every character after the first; the first character becomes its upper-case counterpart (`Text.ToUpperChar`). |
| Utils.CapitalizeFirstFixedPoint | lib/utils.js:2 | A string is left unchanged exactly when it is empty or does not start with a lower-case letter. |
| Utils.CapitalizeFirstIdempotent | lib/utils.js:1-3 | Capitalising twice is the same as capitalising once. |
| Utils.SplitProperties | lib/utils.js:7 | Splitting on a separator gives one piece more than there are separators, and no piece contains the separator. Joining the pieces with it gives back the string. |
| Utils.SplitOnComma | lib/utils.js:5-11 | The falsy (empty) string gives `''`. Any other string gives one piece per comma plus one; each piece is the trimmed text between commas and contains no comma. |
| Utils.TrimKeepsOut | lib/utils.js:7 | Trimming never introduces a character a piece did not contain. |
| Text.Trim | lib/utils.js:7 | The result is the string with whitespace removed on both sides only; it neither starts nor ends with whitespace. |
| Text.ToUpperChar | lib/utils.js:2 | A lower-case letter becomes the upper-case letter 32 code points below it; every other character is kept; the result is never lower-case. |
| Text.ToUpper | lib/artifacts/webhook.js:60 | Keeps the length and upper-cases each character on its own. |
| Text.ToLower | lib/artifacts/webhook.js:20 | Keeps the length and lower-cases each character on its own. |
| Text.ToUpperIdempotent | lib/artifacts/webhook.js:209 | Upper-casing an upper-cased string changes nothing. |
| Text.ContainsOccurs | lib/artifacts/webhook.js:209 | The test of a literal pattern is true exactly when the pattern occurs at some position of the string. |
| Text.NatToString | lib/artifacts/alarm.js:46-50 | A number interpolated into a template string is a non-empty run of digits with no leading zero. |
| Text.DecimalRoundTrip | lib/artifacts/alarm.js:46-50 | Reading the numeral back gives the number it was made from. |
| Text.NatToStringInjective | lib/artifacts/alarm.js:46-50 | Distinct numbers give distinct numerals. |
| Json.PutProperties | lib/cfn.js:187 | Assigning `d[k] = v` makes `k` hold `v` and leaves every other key unchanged. An existing key keeps its position and a new key goes last, so the key order extends the old one and a valid object stays valid. |
| Json.Member | lib/artifacts/dispatch.js:44 | Reading a property fails exactly on `undefined` or `null`; otherwise it gives the property, `undefined` when absent. |
| Lambda.SetLambdaTimeout | lib/artifacts/lambda.js:48-58 | The result is always in (0, 900]. A timeout in (0, 900] is kept, one above 900 becomes 900, and an absent, zero or negative one becomes 60. |
| Lambda.TimeoutIdempotent | lib/artifacts/lambda.js:48-58 | Clamping a clamped timeout again changes nothing. |
| Lambda.SetLambdaMemorySize | lib/artifacts/lambda.js:60-70 | The result is always a multiple of 64 in [128, 3008]. Within that range it is the request rounded down to a multiple of 64, above it it is 3008, and otherwise 128. |
| Lambda.MemorySizeIsLargestBelow | lib/artifacts/lambda.js:60-70 | For any request of at least 128, every allowed size not above the request is at most the size chosen: the largest allowed size is chosen. |
| Lambda.MemorySizeIdempotent | lib/artifacts/lambda.js:60-70 | A size the rule produced is left unchanged by it. |
| Lambda.SetLambdaRuntime | lib/artifacts/lambda.js:72-82 | Succeeds exactly for an absent runtime (giving `nodejs10.x`) or one of the two supported runtimes (kept). Anything else fails with "Invalid AWS Lambda node.js runtime <r>". |
| Lambda.SetLambdaHandler | lib/artifacts/lambda.js:84-93 | A given handler is used verbatim; otherwise the handler is `<dir>/function.fn`. |
| Lambda.PropertiesInOrder | lib/artifacts/lambda.js:25-43 | The eight properties, assigned in order, are listed in that order and each holds its own value. |
| Lambda.BuildLambda | lib/artifacts/lambda.js:19-46 | Fails exactly when the runtime is rejected, with its error. Otherwise the fragment satisfies `Lambda.LambdaBuilt`: one resource under the function's name, `AWS::Lambda::Function` with code location, role selection, stack-name description and empty `Environment.Variables`, then the four chosen settings. |
| Alarm.SetLambdaThreshold | lib/artifacts/alarm.js:89-99 | A positive threshold is kept; an absent, zero or negative one gives 0. |
| Alarm.SetLambdaEvaluationPeriods | lib/artifacts/alarm.js:101-111 | Always positive. A positive count is kept; an absent, zero or negative one gives 5. |
| Alarm.SetLambdaPeriod | lib/artifacts/alarm.js:113-123 | Always positive. A positive period is kept; an absent, zero or negative one gives 60. |
| Alarm.SettingsIdempotent | lib/artifacts/alarm.js:89-123 | Each rule leaves a value it produced unchanged. |
| Alarm.AlarmTargets | lib/artifacts/alarm.js:42-63 | Each alarm is an `AWS::CloudWatch::Alarm` on its own metric and comparison, in namespace `AWS/Lambda`, with statistic `Sum`, notifying `Ref(ServiceAlarmSNSTopic)`. |
| Alarm.AlarmSettingsDecode | lib/artifacts/alarm.js:46-50 | The three settings are decimal strings that read back as the values the three rules chose. |
| Alarm.AlarmsShareSettings | lib/artifacts/alarm.js:42-63 | The Errors and NoInvocations alarms have the same threshold, evaluation periods, period and dimensions. |
| Alarm.AlarmKeysDistinct | lib/artifacts/alarm.js:43-72 | For every function name, the two alarm keys and the topic key are pairwise distinct. |
| Alarm.AlarmResourceKeys | lib/artifacts/alarm.js:42-83 | The resources are exactly `<name>AlarmErrors`, `<name>AlarmNoInvocations` and `ServiceAlarmSNSTopic`, in that order, none repeated. |
| Alarm.AlarmResourceValues | lib/artifacts/alarm.js:42-83 | Each of the three resource keys holds its own alarm or the topic. |
| Alarm.BuildServiceAlarms | lib/artifacts/alarm.js:22-87 | The fragment satisfies `Alarm.AlarmsBuilt`: three collections and no policies. Resources are the two alarms, each with its full contents, then the topic. Parameters are exactly `{ServiceAlarmEmail}` and Variables exactly `{ServiceAlarmSNSTopic: Ref(ServiceAlarmSNSTopic)}`. |
| Parameters.ValidParameters | lib/artifacts/parameters.js:27-42 | Reports nothing exactly when every parameter passes. Otherwise it reports the error of the first failing parameter in iteration order, the checks being name, then `Type`, then `Description`. |
| Parameters.BuiltInsAssigned | lib/artifacts/parameters.js:11-22 | After the three assignments a built-in name holds its built-in parameter, overwriting a caller's; every other name holds what it held. |
| Parameters.BuiltInKeys | lib/artifacts/parameters.js:11-22 | The keys become the caller's keys in order followed by the built-in names the caller did not use, in the order `CodeS3Bucket`, `CodeS3Prefix`, `GitSha`; the object stays valid. |
| Parameters.BuildParameters | lib/artifacts/parameters.js:1-25 | Fails exactly when a caller parameter fails validation, with the first failure's error. Otherwise the fragment satisfies `Parameters.ParametersBuilt`: Parameters holds the caller's keys in order followed by the missing built-ins in assignment order; each key holds its built-in or the caller's value. Without caller parameters that is exactly the three built-ins. |
| Roles.FirstStatementError | lib/artifacts/roles.js:101-111 | No error exactly when every statement passes. Otherwise the error of the first failing statement, its checks being `Effect`, then `Resource`/`NotResource`, then `Action`/`NotAction`. |
| Roles.StatementValidation | lib/artifacts/roles.js:94-112 | A non-array fails with "options.statements must be an array"; an array is checked statement by statement. |
| Roles.TrustStatements | lib/artifacts/roles.js:14-33 | One trust statement per service, in order. |
| Roles.TrustedServices | lib/artifacts/roles.js:14-77 | Always `lambda.amazonaws.com` then `events.amazonaws.com`. `apigateway.amazonaws.com` is added exactly when a webhook is requested. |
| Roles.PolicyParts | lib/artifacts/roles.js:82-87 | A policy gives back the name and the statements it was built from. |
| Roles.BasicPolicyGrants | lib/artifacts/roles.js:35-63 | `basic` has exactly three Allow statements: `logs:*`, `sns:Publish` on `Ref(ServiceAlarmSNSTopic)`, and `iam:SimulateCustomPolicy`. |
| Roles.RolePolicies | lib/artifacts/roles.js:35-88 | `basic` first. The caller's statements, verbatim, form a second policy named after the function exactly when they are given. |
| Roles.RoleResourceParts | lib/artifacts/roles.js:11-66 | The role is an `AWS::IAM::Role` with path `/` and gives back its trust statements and policies. |
| Roles.BuildRole | lib/artifacts/roles.js:6-91 | Fails exactly when given statements fail validation, with that error. Otherwise there is one resource keyed by `roleName`: the role with the trusted services and the role policies. |
| CloudWatch.ValidateCloudWatchEvent | lib/artifacts/cloudwatch.js:56-76 | Passes exactly when the type is non-empty, mentions a kind, and, for `cloudwatchEvent` and `schedule`, the `eventPattern` or `expression` is readable and truthy. Each failure has the source's error: a missing type, an unknown type, an unreadable setting's TypeError, "eventPattern required for cloudwatch event", "scheduled function expression cannot be undefined". |
| CloudWatch.MissingEntryIsTypeError | lib/artifacts/cloudwatch.js:67-75 | For the two known types, an absent `eventSources` or an absent entry for the type fails with the TypeError of the property read through it. |
| CloudWatch.KnownTypesAllowed | lib/artifacts/cloudwatch.js:62 | Both types the compiler passes match the pattern. |
| CloudWatch.SubstringTypeAccepted | lib/artifacts/cloudwatch.js:62-65 | Every type other than the two kinds that contains one of them, such as `dailyschedule`, passes validation whatever the event sources hold. |
| CloudWatch.PermissionParts | lib/artifacts/cloudwatch.js:23-31 | The permission lets `events.amazonaws.com` invoke the function, scoped to the rule's ARN. |
| CloudWatch.RuleParts | lib/artifacts/cloudwatch.js:33-51 | The rule is an enabled `AWS::Events::Rule` with the role selection and a single target, the function. It carries the one of pattern or schedule that was set, never both. |
| CloudWatch.BuildCloudwatchEvent | lib/artifacts/cloudwatch.js:15-54 | A failed validation is the builder's error; for the two known types, validation passing is exactly success. A setting that cannot be read after validation is the builder's error. On success the fragment satisfies `CloudWatch.EventBuilt`: exactly two resources, `<name><Type>Permission` then `<name><Type>Rule`, with their full contents. The rule carries the options' `eventPattern` for `cloudwatchEvent` and their schedule `expression` otherwise. |
| Sns.BuildSnsEvent | lib/artifacts/sns.js:3-83 | The fragment has exactly Resources and Outputs and no policies; its contents are stated by the lemmas below. |
| Sns.SnsResourcesKeyed | lib/artifacts/sns.js:9-70 | Exactly four resources, `<name>` plus SNSPermission, SNSUser, SNSTopic and SNSUserAccessKey, in order and never repeated. |
| Sns.SnsOutputsKeyed | lib/artifacts/sns.js:72-80 | Exactly three outputs, SNSTopic, SNSUserAccessKey and SNSUserSecretAccessKey, in order and never repeated. |
| Sns.SnsDependsOnlyOnName | lib/artifacts/sns.js:3-83 | Two option sets with the same name give the same fragment. |
| Sns.SnsResourceValues | lib/artifacts/sns.js:9-70 | Each of the four resource keys holds its own resource. |
| Sns.SnsPermissionParts | lib/artifacts/sns.js:9-17 | The permission has principal `sns.amazonaws.com`, function `GetAtt(name, Arn)` and source `Ref(<name>SNSTopic)`. |
| Sns.SnsTopicParts | lib/artifacts/sns.js:51-63 | The topic's single subscription delivers to the function over protocol `lambda`. |
| Sns.SnsUserParts | lib/artifacts/sns.js:19-70 | The user is an `AWS::IAM::User`, and the access key belongs to it. |
| Sns.SnsUserStatementsParts | lib/artifacts/sns.js:27-44 | Two Allow statements: ListTopics and Publish on the topic, and ListTopics on every topic of the account (`arn:aws:sns:<region>:<account>:*`). |
| Sns.SnsOutputValues | lib/artifacts/sns.js:72-80 | The outputs expose the topic, the access key and its secret. |
| Webhook.ValidateWebhookOptions | lib/artifacts/webhook.js:204-213 | Passes exactly when the method is a string mentioning an HTTP verb once upper-cased. A missing method and a method with no verb each fail with their own error. |
| Webhook.SubstringMethodAccepted | lib/artifacts/webhook.js:209 | Every method whose upper-cased form contains one of the seven verbs passes, such as `forget`. |
| Webhook.GetApiDeploymentName | lib/artifacts/webhook.js:215-221 | Always starts with `ApiDeployment`. In test mode it is exactly that; otherwise it is followed by the random digits. |
| Webhook.MethodResponses | lib/artifacts/webhook.js:25-42 | Absent responses become the 200 and 500 defaults, an array is kept, and anything else fails with "Webhook method responses is not an array". |
| Webhook.IntegrationDefaults | lib/artifacts/webhook.js:44-52 | Each of the four fields keeps a truthy supplied value and otherwise gets its default. Every other field of the integration is kept. |
| Webhook.DefaultIntegration | lib/artifacts/webhook.js:44-52 | Without an integration it is exactly the four defaults, in order. |
| Webhook.WebhookResourceKeys | lib/artifacts/webhook.js:15-187 | Nine keys, in assignment order, each `<name>Webhook` plus a suffix; the method and permission slots are named. |
| Webhook.WebhookResourceKeysDistinct | lib/artifacts/webhook.js:15-187 | For every name and deployment suffix the nine keys are pairwise distinct. |
| Webhook.MethodResourceParts | lib/artifacts/webhook.js:54-64 | The method is an `AWS::ApiGateway::Method` holding the given HTTP method and integration, and does not yet require an API key. |
| Webhook.SetPropertyParts | lib/artifacts/webhook.js:194 | Setting one property changes that property alone. |
| Webhook.MethodParts | lib/artifacts/webhook.js:54-198 | The final method requires an API key exactly when one is requested. Its HTTP method is the given one upper-cased, and its integration has the defaults filled in. |
| Webhook.ResourceValues | lib/artifacts/webhook.js:15-187 | Nine values aligned with the keys; the method and the permission occupy their slots. |
| Webhook.Reassigned | lib/artifacts/webhook.js:179-187 | Reassigning an entry its own value changes nothing; assigning a new value replaces it in place. |
| Webhook.DeploymentOrder | lib/artifacts/webhook.js:86-110 | The API key depends on the deployment's key, and the deployment on `<name>WebhookMethod`. |
| Webhook.WebhookResourcesLiteral | lib/artifacts/webhook.js:179-198 | The second permission assignment and the API-key update leave the literal of the final values. |
| Webhook.WebhookResourcesParts | lib/artifacts/webhook.js:15-198 | The resources are exactly the nine keys, in order, without repeats; each holds its final value. |
| Webhook.WebhookOutputsParts | lib/artifacts/webhook.js:189-198 | The endpoint output always, and the API key output exactly when one is requested. |
| Webhook.AssignResources | lib/artifacts/webhook.js:15-187 | The nine assignments give the literal of the nine keys and values. |
| Webhook.BuildWebhookEvent | lib/artifacts/webhook.js:6-201 | Fails exactly when validation or the method responses fail, with that error. Otherwise the fragment is exactly the webhook resources and outputs. |
| Destination.TopicPermissionsGrant | lib/artifacts/destination.js:24-35 | Each policy is named `<d>TopicPermissions`. It has one Allow statement: `sns:Publish` on `Ref(name)`. |
| Destination.TopicPolicies | lib/artifacts/destination.js:24-35 | One policy per destination, in iteration order. |
| Destination.SuffixedKeysDistinct | lib/artifacts/destination.js:18-51 | Distinct destinations give distinct `<d>Email` and `<d>Topic` keys. |
| Destination.CollectedKeys | lib/artifacts/destination.js:18-51 | Each collection gets exactly one key per destination, in iteration order, none twice. |
| Destination.CollectedEntries | lib/artifacts/destination.js:18-51 | Each destination's key holds its entry: the email parameter with the copied description, the topic subscribing `Ref(<d>Email)` by email, or `Ref(<d>Topic)`. |
| Destination.DestinationFragmentParts | lib/artifacts/destination.js:8-54 | Parameters, Resources and Variables are keyed `<d>Email`, `<d>Topic` and `<d>Topic` for every destination, and Policies has one entry per destination. |
| Destination.BuildSnsDestination | lib/artifacts/destination.js:8-54 | Nothing is returned without SNS destinations. Otherwise it fails exactly when an entry cannot be read, with the first such entry's error, and succeeds with the destination fragment. |
| Dispatch.First | lib/artifacts/dispatch.js:44 | Reading `[0]` fails exactly on `undefined` or `null`. A value is found only in a non-empty array or in an object. |
| Dispatch.DispatchPolicies | lib/artifacts/dispatch.js:41-52 | The dispatch role has as many policies as the function's role, and all but the first are the same. |
| Dispatch.RoleReads | lib/artifacts/dispatch.js:44 | Every read on the path to the first policy's statements succeeds on a freshly built role. |
| Dispatch.RoleWrites | lib/artifacts/dispatch.js:44-52 | Writing the longer statement list back along that path gives the role built with it. |
| Dispatch.PushOnRole | lib/artifacts/dispatch.js:44-52 | The push adds the statement to the first policy of the role and changes nothing else. |
| Dispatch.DispatchRoleParts | lib/artifacts/dispatch.js:41-52 | The role fails exactly when the caller's statements fail validation. Otherwise it carries `Condition: HasDispatchSnsArn` and the function's trust statements. Its `basic` policy gains exactly one statement, `sns:Publish` on `Ref(DispatchSnsArn)`. |
| Dispatch.AddConditionSpec | lib/artifacts/dispatch.js:16-31 | `HasDispatchSnsArn` is added (last) only when missing; an existing definition and every other condition are kept. |
| Dispatch.WithDispatchSpec | lib/artifacts/dispatch.js:15-53 | Fails exactly without Parameters, with a role error, or without Resources. Otherwise only Conditions, `Parameters.DispatchSnsArn` (overwritten silently) and `Resources.LambdaCfnDispatchRole` change. |
| Dispatch.DispatchSupportSpec | lib/artifacts/dispatch.js:15-53 | The same failure cases for the role built from the options; on success the new resource is the dispatch role. |
| Dispatch.DispatchKeepsResources | lib/artifacts/dispatch.js:41-43 | Every resource other than the dispatch role, `LambdaCfnRole` included, keeps its definition. |
| Dispatch.BuildDispatchRole | lib/artifacts/dispatch.js:41-52 | Builds the marked role with the statement pushed, or the role builder's error. |
| Dispatch.InstallDispatch | lib/artifacts/dispatch.js:16-43 | The assignments on the template: it ends as the dispatch function says, or with its error. |
| Dispatch.AddDispatchSupport | lib/artifacts/dispatch.js:15-53 | The template ends as `addDispatchSupport` on its value, or with its error. |
| Compile.MergeKeysSpec | lib/cfn.js:182-188 | Copying keys succeeds exactly when no key repeats one already there or copied before. The keys are appended in order. |
| Compile.MergeKeysGet | lib/cfn.js:182-188 | Each copied key holds the argument's value; the others keep theirs. |
| Compile.MergeKeysError | lib/cfn.js:182-185 | A failed copy names a key that repeats an earlier one, in "<Collection> name used more than once: <key>". |
| Compile.MergeKeysErrStays | lib/cfn.js:182-185 | The first duplicate ends the copy: later keys change nothing. |
| Compile.MergedGet | lib/cfn.js:187 | The merged collection gives the argument's value for its keys and the template's otherwise. |
| Compile.MergeAllKeys | lib/cfn.js:182-188 | Copying a whole collection succeeds exactly when the two key lists are disjoint and without repeats, and then appends them. |
| Compile.MergeAllKeysError | lib/cfn.js:183-184 | A failed copy names a key occurring twice. |
| Compile.MergeSectionSpec | lib/cfn.js:171-190 | `mergeArgumentsTemplate` creates the collection if missing. It merges the argument's keys exactly when none repeats, and otherwise fails naming a repeated key. |
| Compile.MergeSectionsOk | lib/cfn.js:145-151 | The seven calls succeed exactly when no collection would repeat a key; a failure names a repeated key. |
| Compile.MergeSectionsUntouched | lib/cfn.js:145-151 | The calls leave the policies and the collections not yet merged untouched, and create only those merged. |
| Compile.MergeSectionsMerged | lib/cfn.js:145-151 | Each merged collection is the template's keys followed by the argument's. |
| Compile.MergeArgumentSpec | lib/cfn.js:144-158 | An argument merges exactly when no collection repeats a key. Then all seven collections exist, each the old one followed by the argument's; otherwise the error names a repeated key. |
| Compile.UnionKeys | lib/cfn.js:144-151 | The union of a collection lists every argument's keys in argument order. |
| Compile.UnionGet | lib/cfn.js:144-151 | Each key of the union holds the value supplied for it. |
| Compile.KeyInAllKeys | lib/cfn.js:144-151 | A key of any argument's collection is among all the keys. |
| Compile.SuppliedBy | lib/cfn.js:144-151 | With no key repeated, the value supplied for a key is that of the one argument listing it. |
| Compile.CompileSpec | lib/cfn.js:140-163 | The fold succeeds exactly when every argument is defined and no collection key is supplied twice. Then all seven collections exist and each is the disjoint union of the arguments'. Otherwise the error is an undefined argument or names a key supplied twice. |
| Compile.CompilePolicies | lib/cfn.js:152-158 | `Policies` is the in-order concatenation of every argument's non-empty policy array, and absent while there is none. |
| Compile.AllPoliciesNone | lib/cfn.js:152-158 | Arguments without policies contribute none. |
| Compile.CompileNext | lib/cfn.js:144-159 | One more pass merges the next argument into what the earlier passes built. |
| Compile.CompileErrStays | lib/cfn.js:144-159 | A failure ends the fold: later arguments change nothing. |
| Compile.Template.constructor | lib/cfn.js:141 | The template starts as `{}`. |
| Compile.Template.Describe | lib/cfn.js:15-16 | Sets the format version and the description and nothing else. |
| Compile.Template.CopyKeys | lib/cfn.js:182-188 | The `forEach` leaves the collection as the key copy says, or stops at its error; nothing else changes. |
| Compile.Template.MergeArgumentsTemplate | lib/cfn.js:171-190 | The template ends as `mergeArgumentsTemplate` on its value, or fails with its error. |
| Compile.Template.MergeStep | lib/cfn.js:145-151 | Each call advances the argument's merge by one collection, or fails with the merge's error. |
| Compile.Template.MergeCollections | lib/cfn.js:145-151 | The seven calls merge the argument's collections, or fail with the first error. |
| Compile.Template.MergeFragment | lib/cfn.js:145-158 | One argument merged, policies included, exactly as its merge says. |
| Compile.CompileFunction | lib/cfn.js:140-163 | A fresh template holding the fold of the arguments, or the fold's error. |
| Finish.IndexKey | lib/cfn.js:128 | The variable `for...in` binds over an array is the index itself as a decimal string (`Text.NatToString`), one digit long. |
| Finish.GlobalVariablesGet | lib/cfn.js:106-110 | The four globals are assigned over whatever `Variables` held; nothing else changes. |
| Finish.GlobalVariablesKeys | lib/cfn.js:106-110 | The globals are listed after the existing variables, and the object stays valid. |
| Finish.ParameterRefsSpec | lib/cfn.js:112-114 | Every parameter assigned so far holds `Ref` to itself; every other entry is untouched. |
| Finish.InjectedVariablesSpec | lib/cfn.js:103-114 | A parameter maps to `Ref` of itself, else a global to its value, else the template's variable. The keys are exactly the union of the three. |
| Finish.SetEnvironmentVariablesSpec | lib/cfn.js:116-120 | Fails exactly when the function resource, its properties or its environment is `undefined` or `null`. Otherwise only that resource changes, and an object environment gets the variables. |
| Finish.PushPoliciesSpec | lib/cfn.js:129 | A push needs the resource. It changes no other resource and no environment, and keeps the key order. |
| Finish.PushRolePoliciesSpec | lib/cfn.js:126-131 | The loop touches resources `"0"` and `"1"` only and needs both; without `"0"` it fails at once. |
| Finish.FinishCeiling | lib/cfn.js:93-95 | More than 60 parameters fails with "More than 60 parameters specified"; a finished template never has more. |
| Finish.FinalResourcesSpec | lib/cfn.js:116-131 | Only the function resource and, when there are policies, resources `"0"` and `"1"` change. The environment gets the variables, and the key order is kept. |
| Finish.FinishShape | lib/cfn.js:103-133 | A finished template has no `Variables` and no `Policies`. Every other collection except Resources is unchanged. |
| Finish.FinishEnvironment | lib/cfn.js:103-120 | The finished function resource's environment holds exactly the injected variables. |
| Finish.PoliciesNeedIndexResources | lib/cfn.js:126-131 | With policies, finishing needs resources `"0"` and `"1"`; without `"0"` it fails with the TypeError of reading its properties. |
| Finish.RolesKeepTheirPolicies | lib/cfn.js:126-131 | Neither `LambdaCfnRole` nor `LambdaCfnDispatchRole` receives the policies. |
| Finish.InjectVariables | lib/cfn.js:103-114 | `Variables` becomes the injected variables; nothing else changes. |
| Finish.PushPoliciesOntoRoles | lib/cfn.js:126-131 | Resources end as the `Policies` loop says, or the loop's error. |
| Finish.SetFinalResources | lib/cfn.js:116-132 | Resources end as the environment assignment and policy loop say, and `Variables` and `Policies` are deleted. |
| Finish.FinishTemplate | lib/cfn.js:91-133 | The template ends as the passes say on its value, or with their error. |
| Cfn.Arguments | lib/cfn.js:77-87 | Nine arguments: the first eight always defined, the last the SNS destination, undefined when not requested. |
| Cfn.SelectCloudwatchEvent | lib/cfn.js:46-48 | A `cloudwatchEvent` key fills its own slot and leaves the others. |
| Cfn.SelectSchedule | lib/cfn.js:49-51 | A `schedule` key fills its own slot and leaves the others. |
| Cfn.SelectSns | lib/cfn.js:52-54 | An `sns` key fills its own slot and leaves the others. |
| Cfn.SelectWebhook | lib/cfn.js:55-57 | A `webhook` key fills its own slot and leaves the others. |
| Cfn.HandleRule | lib/cfn.js:46-51 | A rule key either fails with the rule builder's error or fills its slot with the full rule fragment (`CloudWatch.EventBuilt`: permission, rule, pattern or schedule, target). |
| Cfn.HandleWebhook | lib/cfn.js:55-57 | The webhook key either fails with the webhook builder's error or fills its slot. |
| Cfn.HandleEventSource | lib/cfn.js:45-60 | Each key selects exactly its builder, whose slot then holds that builder's full fragment. An unknown key fails with "Unknown event source specified: <key>". |
| Cfn.HandleEventSourceAt | lib/cfn.js:44-61 | The pass over the next key fails with that key's error or extends the keys handled by one, its slot holding the builder's full fragment. |
| Cfn.SelectEventSources | lib/cfn.js:30-62 | Fails exactly when some key fails, with the first failing key's error. Otherwise each known key present selects its builder, whose slot holds that builder's full fragment, and every other slot stays `{}`, except SNS, which is the default when `eventSources` is absent. |
| Cfn.SelectDestinations | lib/cfn.js:64-75 | Fails exactly when some destination key fails, with the first failure's error; an unknown key gives "Unknown destination specified: <key>". Otherwise the destination argument is `{}` without `sns`, else the destination builder's result. |
| Cfn.BuildCommon | lib/cfn.js:22-29 | Fails exactly when the name is empty, a parameter is invalid, the runtime is rejected or a statement is invalid, with the first of these errors in source order. Otherwise the four fragments are exactly what their builders state (`ParametersBuilt`, `RoleBuilt`, `AlarmsBuilt`, `LambdaBuilt`). |
| Cfn.BuildFragments | lib/cfn.js:21-75 | Fails exactly when a step before the merge fails, with the first error in source order. Otherwise every fragment has the full contents its builder states. |
| Cfn.AssembleTemplate | lib/cfn.js:77-134 | The template ends as the merge, dispatch support and final passes say, or with their first error. |
| Cfn.BuildFunction | lib/cfn.js:21-135 | A failing builder step gives its error before any merge. Otherwise the result is the assembly of fragments whose full contents the builders state. |
| Cfn.BuildFunctionTemplate | lib/cfn.js:13-18 | As `buildFunction` (fragments with their full contents, then their assembly), with format version `2010-09-09` and the description `<name> lambda-cfn function`. |
| Cfn.DispatchAlwaysApplies | lib/cfn.js:89 | After a successful merge of defined fragments, dispatch support cannot fail once `buildRole` accepted the statements. |
| Cfn.BuiltCarriesNoTriggerPolicies | lib/cfn.js:26-75 | No fragment except the SNS destination carries policies. |
| Cfn.OnlyDestinationsCarryPolicies | lib/cfn.js:152-158 | The merged policies are exactly the SNS destination's. |
| Cfn.SnsDestinationsNeedResourceZero | lib/cfn.js:126-131 | A function with SNS destinations builds only when some fragment defines a resource named `"0"`. |
| Cfn.PoliciesNeedResourceZero | lib/cfn.js:126-131 | Any policies at all make the build need a resource named `"0"`. |
| Cfn.CompiledResource | lib/cfn.js:144-151 | The merged template holds each fragment's resource unchanged. |
| Cfn.DispatchedParameters | lib/cfn.js:89 | After dispatch support, the parameters are every fragment's plus `DispatchSnsArn`. |
| Cfn.DispatchedVariables | lib/cfn.js:89 | After dispatch support, the variables are the ones the fragments supplied. |
| Cfn.InjectedAsExpected | lib/cfn.js:103-114 | Every parameter (with `DispatchSnsArn`) is injected as `Ref` to itself, then the four globals, then the fragments' variables. |
| Cfn.FunctionEnvironment | lib/cfn.js:103-120 | The built function's `Environment.Variables` holds exactly those injected values. |
| Cfn.DefaultTrigger | lib/cfn.js:36-40 | Absent `eventSources` gives the SNS trigger and no other. `eventSources: {}` gives no trigger at all. |
| Cfn.ParameterCeiling | lib/cfn.js:91-95 | The count includes `DispatchSnsArn` and the built-ins. A built template never has more than 60, and more than 60 fails with the ceiling's error. |

## Source quirks

These behaviours of the source are reproduced, not corrected. Each is stated by a lemma.

- `lib/cfn.js:37` compares `options.eventSources !== {}`, which is always true. An `eventSources` object with no keys therefore gets no trigger at all; only an absent one defaults to SNS (`Cfn.DefaultTrigger`).
- `lib/cfn.js:128` iterates over the role-name array with `for...in`, which binds the indices `"0"` and `"1"` rather than the names. It also pushes the whole Policies array as one element. Any template with policies therefore needs resources named `"0"` and `"1"`. Neither role receives the policies (`Finish.PoliciesNeedIndexResources`, `Finish.RolesKeepTheirPolicies`, `Cfn.PoliciesNeedResourceZero`, `Cfn.SnsDestinationsNeedResourceZero`).
- `lib/artifacts/destination.js:31` grants `sns:Publish` on `Ref(options.name)`, the function itself, not the destination's topic (`Destination.TopicPermissionsGrant`).
- The method check at `lib/artifacts/webhook.js:209` and the type check at `lib/artifacts/cloudwatch.js:62` use unanchored regular expressions, so they are substring tests (`Webhook.SubstringMethodAccepted`, `CloudWatch.SubstringTypeAccepted`).
- `lib/artifacts/dispatch.js:33` overwrites `Parameters.DispatchSnsArn` without the collision check of the merge. The 60-parameter ceiling counts it together with the built-in parameters (`Dispatch.WithDispatchSpec`, `Cfn.ParameterCeiling`).
- `lib/cfn.js:7` requires `./artifacts/alarms`, while the file is `lib/artifacts/alarm.js`. The model takes the alarm builder to be the one in `alarm.js`.

## Left out

- `Compile.MergeKeys`: the `JSON.parse(JSON.stringify(...))` copy in `lib/cfn.js:187` is not modelled; each entry is copied as it is. Two differences follow. JSON drops an object key whose value is undefined, while the model keeps such a key listed with no value: a destination without `Description` (`lib/artifacts/destination.js:21`) leaves `Description` listed in its `<name>Email` parameter. And JSON throws a SyntaxError on a collection entry whose value is undefined, while the model copies that entry as undefined. Values that are present are copied unchanged in both.
- The source mutates the caller's options. `mergeArgumentsTemplate` replaces a falsy collection with `{}` (`lib/cfn.js:178-180`); the webhook builder writes default responses and integration fields into `options.eventSources.webhook`. The model computes the same template values without writing them back into the options.
- `buildParameters` aliases `options.parameters` and adds the built-ins to the caller's object. The model builds a new object with the same keys and values.
- `Text.NatToString`: JavaScript renders integers of 10^21 and above in exponent form (`1e+21`); the model writes every integer out in decimal. This affects an alarm threshold, evaluation-period count or period that large (`lib/artifacts/alarm.js:46-50`).
- Numbers are integers. Fractional, `NaN` and non-numeric settings (such as a string timeout) are outside the model, and so are the comparisons JavaScript makes on them.
- Options are typed: a string option that is falsy is the empty string, and an absent object or number option is `None`. Options of other JavaScript types than these are not modelled.
- `Destination.SnsDestinations`: a `destinations.sns` value that is truthy but not an object (a string, a number or an array) is treated as having no destinations. Its enumerable keys are not modelled.
- Object key order follows insertion order. JavaScript lists integer-like keys first in ascending order; that reordering is not modelled.
- Text is treated as ASCII for case mapping: `toUpperCase` and `toLowerCase` change only `a-z` and `A-Z`. The whitespace set of `trim` follows ECMAScript.
- TypeError messages follow the wording of the V8 engine of the source's era; only which operation fails and where is intended to match.
- A property assigned on a primitive is lost in JavaScript's sloppy mode, and one assigned on an array does not appear in the JSON template. The model leaves such a value unchanged. This applies to a non-object environment in `lib/cfn.js:120` and a non-object integration in `lib/artifacts/webhook.js:49-52`.
- When a pass throws part-way through, the source leaves the template partly updated. The model returns the error and makes no claim about the template after an error.
- `Compile.Template.CopyKeys`: when the copy fails, the collection's partial contents are not stated.
- `Cfn.BuildFunction` returns the built fragments as a ghost result. The source keeps them in local variables.
- `Math.random`, `process.env.NODE_ENV` and the `module.parent` path crawl are the parameter `Model.Env` (see above).
- The cloudfriend helpers are opaque constructors. `@mapbox/cloudfriend` is not part of this model.
- `lib/cli.js`, `lib/init.js` and `lib/message.js` (command line, scaffolding, SNS publishing) are input/output and are not part of this model.

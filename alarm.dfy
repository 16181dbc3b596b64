/** lib/artifacts/alarm.js: the two CloudWatch alarms on the function, the
    alarm topic they notify and the settings shared by both alarms. */
module Alarm {
  import opened Wrappers
  import opened Json
  import opened Text
  import opened Model

  const DefaultThreshold := 0
  const DefaultEvaluationPeriods := 5
  const DefaultPeriod := 60

  /** `setLambdaThreshold`: a positive threshold is kept; absent, zero or
      negative gives 0. */
  function SetLambdaThreshold(threshold: Option<int>): (r: nat)
    ensures threshold.Some? && threshold.value > 0 ==> r == threshold.value
    ensures threshold.None? || threshold.value <= 0 ==> r == DefaultThreshold
  {
    if threshold.None? || threshold.value == 0 then DefaultThreshold
    else if threshold.value >= 0 then threshold.value
    else 0
  }

  /** `setLambdaEvaluationPeriods`: a positive count is kept; absent, zero or
      negative resets to 5. */
  function SetLambdaEvaluationPeriods(evaluationPeriods: Option<int>): (r: nat)
    ensures r > 0
    ensures evaluationPeriods.Some? && evaluationPeriods.value > 0 ==> r == evaluationPeriods.value
    ensures evaluationPeriods.None? || evaluationPeriods.value <= 0 ==> r == DefaultEvaluationPeriods
  {
    if evaluationPeriods.None? || evaluationPeriods.value == 0 then DefaultEvaluationPeriods
    else if evaluationPeriods.value >= 0 then evaluationPeriods.value
    else DefaultEvaluationPeriods
  }

  /** `setLambdaPeriod`: a positive period is kept; absent, zero or negative
      resets to 60. */
  function SetLambdaPeriod(period: Option<int>): (r: nat)
    ensures r > 0
    ensures period.Some? && period.value > 0 ==> r == period.value
    ensures period.None? || period.value <= 0 ==> r == DefaultPeriod
  {
    if period.None? || period.value == 0 then DefaultPeriod
    else if period.value >= 0 then period.value
    else DefaultPeriod
  }

  /** Each setting is a fixed point of its own rule, so applying a rule to a
      value it produced changes nothing. */
  lemma SettingsIdempotent(o: Options)
    ensures SetLambdaThreshold(Some(SetLambdaThreshold(o.threshold))) == SetLambdaThreshold(o.threshold)
    ensures SetLambdaEvaluationPeriods(Some(SetLambdaEvaluationPeriods(o.evaluationPeriods)))
      == SetLambdaEvaluationPeriods(o.evaluationPeriods)
    ensures SetLambdaPeriod(Some(SetLambdaPeriod(o.period))) == SetLambdaPeriod(o.period)
  {
  }

  /** One entry of the `defaultAlarms` list */
  datatype AlarmSpec = AlarmSpec(alarmName: string, metricName: string, comparisonOperator: string)

  const DefaultAlarms: seq<AlarmSpec> := [
    AlarmSpec("Errors", "Errors", "GreaterThanThreshold"),
    AlarmSpec("NoInvocations", "Invocations", "LessThanThreshold")
  ]

  /** `options.name + 'Alarm' + alarm.AlarmName` */
  function AlarmKey(name: string, spec: AlarmSpec): string {
    name + "Alarm" + spec.alarmName
  }

  const AlarmDocs := "https://github.com/mapbox/lambda-cfn/blob/master/alarms.md#"

  /** The alarm resource written for one entry of `defaultAlarms`; the three
      settings are written as decimal strings. */
  function AlarmResource(options: Options, spec: AlarmSpec): Json {
    JObj(Empty
      .With("Type", JStr("AWS::CloudWatch::Alarm"))
      .With("Properties", JObj(Empty
        .With("EvaluationPeriods", JStr(NatToString(SetLambdaEvaluationPeriods(options.evaluationPeriods))))
        .With("Statistic", JStr("Sum"))
        .With("Threshold", JStr(NatToString(SetLambdaThreshold(options.threshold))))
        .With("AlarmDescription", JStr(AlarmDocs + spec.alarmName))
        .With("Period", JStr(NatToString(SetLambdaPeriod(options.period))))
        .With("AlarmActions", JArr([Ref("ServiceAlarmSNSTopic")]))
        .With("Namespace", JStr("AWS/Lambda"))
        .With("Dimensions", JArr([JObj(Empty.With("Name", JStr("FunctionName")).With("Value", Ref(options.name)))]))
        .With("ComparisonOperator", JStr(spec.comparisonOperator))
        .With("MetricName", JStr(spec.metricName)))))
  }

  /** An alarm watches its metric of the function in `AWS/Lambda` and notifies the alarm topic. */
  lemma AlarmTargets(options: Options, spec: AlarmSpec)
    ensures
      var a := AlarmResource(options, spec);
      && Lookup(a, "Type") == Some(JStr("AWS::CloudWatch::Alarm"))
      && Prop(a, "MetricName") == Some(JStr(spec.metricName))
      && Prop(a, "ComparisonOperator") == Some(JStr(spec.comparisonOperator))
      && Prop(a, "Namespace") == Some(JStr("AWS/Lambda"))
      && Prop(a, "AlarmActions") == Some(JArr([Ref("ServiceAlarmSNSTopic")]))
      && Prop(a, "Statistic") == Some(JStr("Sum"))
  {
  }

  /** Reading the settings of an alarm back as decimal numbers gives the values
      the three rules chose. */
  lemma {:induction false} AlarmSettingsDecode(options: Options, spec: AlarmSpec)
    ensures
      var a := AlarmResource(options, spec);
      && Prop(a, "Threshold").Some? && Prop(a, "Threshold").value.JStr?
      && ParseDecimal(Prop(a, "Threshold").value.s) == SetLambdaThreshold(options.threshold)
    ensures
      var a := AlarmResource(options, spec);
      && Prop(a, "EvaluationPeriods").Some? && Prop(a, "EvaluationPeriods").value.JStr?
      && ParseDecimal(Prop(a, "EvaluationPeriods").value.s) == SetLambdaEvaluationPeriods(options.evaluationPeriods)
    ensures
      var a := AlarmResource(options, spec);
      && Prop(a, "Period").Some? && Prop(a, "Period").value.JStr?
      && ParseDecimal(Prop(a, "Period").value.s) == SetLambdaPeriod(options.period)
  {
    DecimalRoundTrip(SetLambdaThreshold(options.threshold));
    DecimalRoundTrip(SetLambdaEvaluationPeriods(options.evaluationPeriods));
    DecimalRoundTrip(SetLambdaPeriod(options.period));
  }

  /** The two alarms differ only in their name, metric and comparison. */
  lemma AlarmsShareSettings(options: Options)
    ensures
      var errors := AlarmResource(options, DefaultAlarms[0]);
      var idle := AlarmResource(options, DefaultAlarms[1]);
      && Prop(errors, "Threshold") == Prop(idle, "Threshold")
      && Prop(errors, "EvaluationPeriods") == Prop(idle, "EvaluationPeriods")
      && Prop(errors, "Period") == Prop(idle, "Period")
      && Prop(errors, "Dimensions") == Prop(idle, "Dimensions")
  {
  }

  /** The topic every alarm notifies, subscribed by email to `ServiceAlarmEmail` */
  const AlarmTopic: Json :=
    JObj(Empty
      .With("Type", JStr("AWS::SNS::Topic"))
      .With("Properties", JObj(Empty
        .With("TopicName", Join("-", [StackNameRef, JStr("ServiceAlarm")]))
        .With("Subscription", JArr([JObj(Empty.With("Endpoint", Ref("ServiceAlarmEmail")).With("Protocol", JStr("email")))])))))

  const AlarmEmailParameter: Json :=
    JObj(Empty
      .With("Type", JStr("String"))
      .With("Description", JStr("Service alarm notifications will send to this email address")))

  /** The resource keys the builder uses never collide, whatever the function name. */
  lemma AlarmKeysDistinct(name: string)
    ensures AlarmKey(name, DefaultAlarms[0]) != AlarmKey(name, DefaultAlarms[1])
    ensures AlarmKey(name, DefaultAlarms[0]) != "ServiceAlarmSNSTopic"
    ensures AlarmKey(name, DefaultAlarms[1]) != "ServiceAlarmSNSTopic"
  {
    var k0 := AlarmKey(name, DefaultAlarms[0]);
    var k1 := AlarmKey(name, DefaultAlarms[1]);
    assert |k0| != |k1|;
    // both alarm keys end in 's', the topic key in 'c'
    assert k0[|k0| - 1] == 's' && k1[|k1| - 1] == 's';
  }

  /** The alarm resources after the first `n` entries of `defaultAlarms` */
  function AlarmsUpTo(options: Options, n: nat): Dict
    requires n <= |DefaultAlarms|
  {
    if n == 0 then Empty
    else AlarmsUpTo(options, n - 1).Put(AlarmKey(options.name, DefaultAlarms[n - 1]), AlarmResource(options, DefaultAlarms[n - 1]))
  }

  /** After both alarms and the topic: three distinct keys, in order. */
  lemma AlarmResourceKeys(options: Options)
    ensures
      var resources := AlarmsUpTo(options, 2).Put("ServiceAlarmSNSTopic", AlarmTopic);
      && resources.keys
         == [AlarmKey(options.name, DefaultAlarms[0]), AlarmKey(options.name, DefaultAlarms[1]), "ServiceAlarmSNSTopic"]
      && resources.Valid()
  {
    var k0 := AlarmKey(options.name, DefaultAlarms[0]);
    var k1 := AlarmKey(options.name, DefaultAlarms[1]);
    AlarmKeysDistinct(options.name);
    assert AlarmsUpTo(options, 0) == Empty;
    assert AlarmsUpTo(options, 1).keys == [k0];
    assert AlarmsUpTo(options, 2).keys == [k0, k1];
  }

  /** After both alarms and the topic, each key holds its resource. */
  lemma AlarmResourceValues(options: Options)
    ensures
      var resources := AlarmsUpTo(options, 2).Put("ServiceAlarmSNSTopic", AlarmTopic);
      && resources.Get("ServiceAlarmSNSTopic") == Some(AlarmTopic)
      && forall i :: 0 <= i < |DefaultAlarms| ==>
        resources.Get(AlarmKey(options.name, DefaultAlarms[i])) == Some(AlarmResource(options, DefaultAlarms[i]))
  {
    AlarmKeysDistinct(options.name);
    assert AlarmsUpTo(options, 0) == Empty;
  }

  /** The fragment `buildServiceAlarms` returns: the two alarms then the
      topic as resources, the notification e-mail parameter, and the topic's
      reference as a variable. */
  predicate AlarmsBuilt(f: Fragment, options: Options) {
    && f.sections.Keys == {Parameters, Resources, Variables} && f.policies.None?
    && f.sections[Resources].keys
       == [AlarmKey(options.name, DefaultAlarms[0]), AlarmKey(options.name, DefaultAlarms[1]), "ServiceAlarmSNSTopic"]
    && f.sections[Resources].Valid()
    && (forall i :: 0 <= i < |DefaultAlarms| ==>
         f.sections[Resources].Get(AlarmKey(options.name, DefaultAlarms[i])) == Some(AlarmResource(options, DefaultAlarms[i])))
    && f.sections[Resources].Get("ServiceAlarmSNSTopic") == Some(AlarmTopic)
    && f.sections[Parameters].keys == ["ServiceAlarmEmail"]
    && f.sections[Parameters].Get("ServiceAlarmEmail") == Some(AlarmEmailParameter)
    && f.sections[Variables].keys == ["ServiceAlarmSNSTopic"]
    && f.sections[Variables].Get("ServiceAlarmSNSTopic") == Some(Ref("ServiceAlarmSNSTopic"))
  }

  /** `buildServiceAlarms`: one alarm per entry of `defaultAlarms`, in order,
      then the alarm topic, the email parameter and the topic variable. */
  method BuildServiceAlarms(options: Options) returns (f: Fragment)
    ensures AlarmsBuilt(f, options)
  {
    var resources := Empty;
    for i := 0 to |DefaultAlarms|
      invariant resources == AlarmsUpTo(options, i)
    {
      resources := resources.Put(AlarmKey(options.name, DefaultAlarms[i]), AlarmResource(options, DefaultAlarms[i]));
    }
    var parameters := Empty.With("ServiceAlarmEmail", AlarmEmailParameter);
    resources := resources.Put("ServiceAlarmSNSTopic", AlarmTopic);
    var variables := Empty.Put("ServiceAlarmSNSTopic", Ref("ServiceAlarmSNSTopic"));
    AlarmResourceKeys(options);
    AlarmResourceValues(options);
    f := Fragment(map[Parameters := parameters, Resources := resources, Variables := variables], None);
  }
}

/** lib/artifacts/sns.js: the default trigger, an SNS topic subscribed to by
    the function, with an IAM user (and access key) allowed to publish to it. */
module Sns {
  import opened Wrappers
  import opened Json
  import opened Model

  function Allow(resource: Json, actions: seq<string>): Json {
    JObj(Empty
      .With("Resource", resource)
      .With("Action", JArr(seq(|actions|, i requires 0 <= i < |actions| => JStr(actions[i]))))
      .With("Effect", JStr("Allow")))
  }

  /** The permission for SNS to invoke the function from the topic */
  function SnsPermission(name: string): Json {
    JObj(Empty
      .With("Type", JStr("AWS::Lambda::Permission"))
      .With("Properties", JObj(Empty
        .With("FunctionName", GetAtt(name, "Arn"))
        .With("Action", JStr("lambda:InvokeFunction"))
        .With("Principal", JStr("sns.amazonaws.com"))
        .With("SourceArn", Ref(name + "SNSTopic")))))
  }

  /** The two statements of the user's policy: list and publish on the topic,
      and list on every topic of the account. */
  function SnsUserStatements(name: string): seq<Json> {
    [ Allow(Ref(name + "SNSTopic"), ["sns:ListTopics", "sns:Publish"]),
      Allow(Join("", [JStr("arn:aws:sns:"), RegionRef, JStr(":"), AccountIdRef, JStr(":*")]), ["sns:ListTopics"]) ]
  }

  function SnsUser(name: string): Json {
    JObj(Empty
      .With("Type", JStr("AWS::IAM::User"))
      .With("Properties", JObj(Empty
        .With("Policies", JArr([JObj(Empty
          .With("PolicyName", JStr(name + "SNSTopicPolicy"))
          .With("PolicyDocument", JObj(Empty
            .With("Version", JStr("2012-10-17"))
            .With("Statement", JArr(SnsUserStatements(name))))))])))))
  }

  function SnsTopic(name: string): Json {
    JObj(Empty
      .With("Type", JStr("AWS::SNS::Topic"))
      .With("Properties", JObj(Empty
        .With("DisplayName", Join("-", [StackNameRef, JStr(name)]))
        .With("TopicName", Join("-", [StackNameRef, JStr(name)]))
        .With("Subscription", JArr([JObj(Empty.With("Endpoint", GetAtt(name, "Arn")).With("Protocol", JStr("lambda")))])))))
  }

  function SnsAccessKey(name: string): Json {
    JObj(Empty
      .With("Type", JStr("AWS::IAM::AccessKey"))
      .With("Properties", JObj(Empty.With("UserName", Ref(name + "SNSUser")))))
  }

  /** `{Value: v}` */
  function Output(v: Json): Json {
    JObj(Empty.With("Value", v))
  }

  /** The resource keys of the trigger, all `name` plus a fixed suffix */
  function SnsResourceKeys(name: string): seq<string> {
    [name + "SNSPermission", name + "SNSUser", name + "SNSTopic", name + "SNSUserAccessKey"]
  }

  function SnsOutputKeys(name: string): seq<string> {
    [name + "SNSTopic", name + "SNSUserAccessKey", name + "SNSUserSecretAccessKey"]
  }

  /** `buildSnsEvent`: four resources and three outputs, each keyed by the
      function name plus a fixed suffix. */
  function BuildSnsEvent(options: Options): (f: Fragment)
    ensures f.sections.Keys == {Resources, Outputs} && f.policies.None?
  {
    var name := options.name;
    var resources := Empty
      .With(name + "SNSPermission", SnsPermission(name))
      .With(name + "SNSUser", SnsUser(name))
      .With(name + "SNSTopic", SnsTopic(name))
      .With(name + "SNSUserAccessKey", SnsAccessKey(name));
    var outputs := Empty
      .With(name + "SNSTopic", Output(Ref(name + "SNSTopic")))
      .With(name + "SNSUserAccessKey", Output(Ref(name + "SNSUserAccessKey")))
      .With(name + "SNSUserSecretAccessKey", Output(GetAtt(name + "SNSUserAccessKey", "SecretAccessKey")));
    Fragment(map[Resources := resources, Outputs := outputs], None)
  }

  /** Exactly four resources, in this order, none repeated whatever the name:
      the suffixes have different lengths. */
  lemma SnsResourcesKeyed(options: Options)
    ensures BuildSnsEvent(options).sections[Resources].keys == SnsResourceKeys(options.name)
    ensures BuildSnsEvent(options).sections[Resources].Valid()
  {
    var rs := SnsResourceKeys(options.name);
    var resources := BuildSnsEvent(options).sections[Resources];
    assert resources.keys == rs;
    assert NoDuplicates(rs) by {
      assert |rs[1]| < |rs[2]| < |rs[0]| < |rs[3]|;
    }
  }

  /** Exactly three outputs, in this order, none repeated. */
  lemma SnsOutputsKeyed(options: Options)
    ensures BuildSnsEvent(options).sections[Outputs].keys == SnsOutputKeys(options.name)
    ensures BuildSnsEvent(options).sections[Outputs].Valid()
  {
    var os := SnsOutputKeys(options.name);
    var outputs := BuildSnsEvent(options).sections[Outputs];
    assert outputs.keys == os;
    assert NoDuplicates(os) by {
      assert |os[0]| < |os[1]| < |os[2]|;
    }
  }

  /** The trigger is a function of the name alone. */
  lemma SnsDependsOnlyOnName(a: Options, b: Options)
    requires a.name == b.name
    ensures BuildSnsEvent(a) == BuildSnsEvent(b)
  {
  }

  /** Each resource key holds its own resource: the suffixes have different lengths. */
  lemma SnsResourceValues(options: Options)
    ensures
      var name := options.name;
      var resources := BuildSnsEvent(options).sections[Resources];
      && resources.Get(name + "SNSPermission") == Some(SnsPermission(name))
      && resources.Get(name + "SNSUser") == Some(SnsUser(name))
      && resources.Get(name + "SNSTopic") == Some(SnsTopic(name))
      && resources.Get(name + "SNSUserAccessKey") == Some(SnsAccessKey(name))
  {
    var name := options.name;
    var permission, user, topic, key := name + "SNSPermission", name + "SNSUser", name + "SNSTopic", name + "SNSUserAccessKey";
    assert |user| < |topic| < |permission| < |key|;
  }

  /** SNS may invoke the function, scoped to the function's own topic. */
  lemma SnsPermissionParts(options: Options)
    ensures
      var p := BuildSnsEvent(options).sections[Resources].Get(options.name + "SNSPermission");
      && p.Some?
      && Lookup(p.value, "Type") == Some(JStr("AWS::Lambda::Permission"))
      && Prop(p.value, "FunctionName") == Some(GetAtt(options.name, "Arn"))
      && Prop(p.value, "Principal") == Some(JStr("sns.amazonaws.com"))
      && Prop(p.value, "SourceArn") == Some(Ref(options.name + "SNSTopic"))
  {
    SnsResourceValues(options);
  }

  /** The topic's single subscription delivers to the function. */
  lemma SnsTopicParts(options: Options)
    ensures
      var t := BuildSnsEvent(options).sections[Resources].Get(options.name + "SNSTopic");
      && t.Some?
      && Lookup(t.value, "Type") == Some(JStr("AWS::SNS::Topic"))
      && Prop(t.value, "Subscription")
         == Some(JArr([JObj(Empty.With("Endpoint", GetAtt(options.name, "Arn")).With("Protocol", JStr("lambda")))]))
  {
    SnsResourceValues(options);
  }

  /** The user and its access key, which belongs to it */
  lemma SnsUserParts(options: Options)
    ensures
      var u := BuildSnsEvent(options).sections[Resources].Get(options.name + "SNSUser");
      && u.Some?
      && Lookup(u.value, "Type") == Some(JStr("AWS::IAM::User"))
    ensures
      var k := BuildSnsEvent(options).sections[Resources].Get(options.name + "SNSUserAccessKey");
      && k.Some?
      && Prop(k.value, "UserName") == Some(Ref(options.name + "SNSUser"))
  {
    SnsResourceValues(options);
  }

  /** The user may list and publish on the topic and list every topic of the
      account. */
  lemma SnsUserStatementsParts(name: string)
    ensures
      var s := SnsUserStatements(name);
      && |s| == 2
      && Lookup(s[0], "Resource") == Some(Ref(name + "SNSTopic"))
      && Lookup(s[0], "Action") == Some(JArr([JStr("sns:ListTopics"), JStr("sns:Publish")]))
      && Lookup(s[1], "Action") == Some(JArr([JStr("sns:ListTopics")]))
      && Lookup(s[1], "Resource") == Some(Join("", [JStr("arn:aws:sns:"), RegionRef, JStr(":"), AccountIdRef, JStr(":*")]))
      && (forall i :: 0 <= i < 2 ==> Lookup(s[i], "Effect") == Some(JStr("Allow")))
  {
    var s := SnsUserStatements(name);
    assert Lookup(s[0], "Action").value.items == [JStr("sns:ListTopics"), JStr("sns:Publish")];
    assert Lookup(s[1], "Action").value.items == [JStr("sns:ListTopics")];
  }

  /** The outputs expose the topic, the access key and its secret. */
  lemma SnsOutputValues(options: Options)
    ensures
      var outputs := BuildSnsEvent(options).sections[Outputs];
      && outputs.Get(options.name + "SNSTopic") == Some(Output(Ref(options.name + "SNSTopic")))
      && outputs.Get(options.name + "SNSUserAccessKey") == Some(Output(Ref(options.name + "SNSUserAccessKey")))
      && outputs.Get(options.name + "SNSUserSecretAccessKey")
         == Some(Output(GetAtt(options.name + "SNSUserAccessKey", "SecretAccessKey")))
  {
  }
}

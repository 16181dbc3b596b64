/** lib/artifacts/destination.js: one SNS topic per named destination, with an
    email parameter, a topic variable and a publish policy for each. */
module Destination {
  import opened Wrappers
  import opened Json
  import opened Text
  import opened Model

  /** `{Type: 'String', Description: description}`; the description may be undefined. */
  function EmailParameter(description: Option<Json>): Json {
    JObj(Empty.With("Type", JStr("String")).Assign("Description", description))
  }

  /** The policy pushed for destination `d`. It grants publish on `Ref(name)`,
      the function itself, rather than on the destination's topic. */
  function TopicPermissions(d: string, name: string): Json {
    JObj(Empty
      .With("PolicyName", JStr(d + "TopicPermissions"))
      .With("PolicyDocument", JObj(Empty.With("Statement", JArr([JObj(Empty
        .With("Effect", JStr("Allow"))
        .With("Action", JStr("sns:Publish"))
        .With("Resource", Ref(name)))])))))
  }

  /** The single statement of a one-statement policy */
  function OnlyStatement(policy: Json): Option<Json> {
    var doc := Lookup(policy, "PolicyDocument");
    if doc.Some? && Lookup(doc.value, "Statement").Some? && Lookup(doc.value, "Statement").value.JArr?
       && |Lookup(doc.value, "Statement").value.items| == 1
    then Some(Lookup(doc.value, "Statement").value.items[0])
    else None
  }

  /** Each destination's policy has one statement, allowing `sns:Publish` (a
      plain string, not a list) on `Ref(name)`: the function, not the topic. */
  lemma TopicPermissionsGrant(d: string, name: string)
    ensures Lookup(TopicPermissions(d, name), "PolicyName") == Some(JStr(d + "TopicPermissions"))
    ensures OnlyStatement(TopicPermissions(d, name)).Some?
    ensures Lookup(OnlyStatement(TopicPermissions(d, name)).value, "Effect") == Some(JStr("Allow"))
    ensures Lookup(OnlyStatement(TopicPermissions(d, name)).value, "Action") == Some(JStr("sns:Publish"))
    ensures Lookup(OnlyStatement(TopicPermissions(d, name)).value, "Resource") == Some(Ref(name))
  {
  }

  /** The topic of destination `d`, mailing the address given in `<d>Email` */
  function DestinationTopic(d: string): Json {
    JObj(Empty
      .With("Type", JStr("AWS::SNS::Topic"))
      .With("Properties", JObj(Empty
        .With("TopicName", Join("-", [StackNameRef, JStr(d)]))
        .With("Subscription", JArr([JObj(Empty.With("Endpoint", Ref(d + "Email")).With("Protocol", JStr("email")))])))))
  }

  /** `options.destinations.sns[d].Description` for the `i`-th destination; a
      null entry cannot be read. */
  function Description(sns: Dict, i: nat): Result<Option<Json>>
    requires i < |sns.keys|
  {
    Member(sns.Get(sns.keys[i]), "Description")
  }

  /** Every one of the first `n` destination entries can be read. */
  predicate Readable(sns: Dict, n: nat)
    requires n <= |sns.keys|
  {
    forall i :: 0 <= i < n ==> Description(sns, i).Ok?
  }

  lemma ReadableStep(sns: Dict, n: nat)
    requires n < |sns.keys| && Readable(sns, n) && Description(sns, n).Ok?
    ensures Readable(sns, n + 1)
  {
  }

  /** The three collections the loop fills, one entry per destination */
  datatype Collection = EmailParameters | Topics | TopicVariables

  function Suffix(c: Collection): string {
    if c == EmailParameters then "Email" else "Topic"
  }

  /** The value the loop stores for the `i`-th destination in collection `c` */
  function Entry(c: Collection, sns: Dict, i: nat): Json
    requires i < |sns.keys| && Description(sns, i).Ok?
  {
    var d := sns.keys[i];
    match c
    case EmailParameters => EmailParameter(Description(sns, i).value)
    case Topics => DestinationTopic(d)
    case TopicVariables => Ref(d + "Topic")
  }

  /** Collection `c` after the loop has visited the first `n` destinations */
  function Collected(c: Collection, sns: Dict, n: nat): Dict
    requires n <= |sns.keys| && Readable(sns, n)
  {
    if n == 0 then Empty
    else Collected(c, sns, n - 1).Put(sns.keys[n - 1] + Suffix(c), Entry(c, sns, n - 1))
  }

  /** The policies pushed for the first `n` destinations, one each, in order */
  function TopicPolicies(name: string, sns: Dict, n: nat): (r: seq<Json>)
    requires n <= |sns.keys|
    ensures |r| == n
    ensures forall i :: 0 <= i < n ==> r[i] == TopicPermissions(sns.keys[i], name)
  {
    if n == 0 then [] else TopicPolicies(name, sns, n - 1) + [TopicPermissions(sns.keys[n - 1], name)]
  }

  /** The keys of `<d>Email`, `<d>Topic` for distinct destinations are distinct. */
  lemma SuffixedKeysDistinct(ks: seq<string>, suffix: string, i: nat, j: nat)
    requires NoDuplicates(ks) && i < |ks| && j < |ks| && i != j
    ensures ks[i] + suffix != ks[j] + suffix
  {
    if ks[i] + suffix == ks[j] + suffix {
      SuffixCancel(ks[i], ks[j], suffix);
    }
  }

  /** `d` followed by `suffix` for each of the first `n` destinations, in order */
  predicate KeyedBy(keys: seq<string>, sns: Dict, suffix: string, n: nat)
    requires n <= |sns.keys|
  {
    |keys| == n && forall i :: 0 <= i < n ==> keys[i] == sns.keys[i] + suffix
  }

  /** With distinct destination names, each collection gets exactly one key per
      destination, in iteration order, and none twice. */
  lemma {:induction false} CollectedKeys(c: Collection, sns: Dict, n: nat)
    requires n <= |sns.keys| && Readable(sns, n) && NoDuplicates(sns.keys)
    ensures KeyedBy(Collected(c, sns, n).keys, sns, Suffix(c), n)
    ensures Collected(c, sns, n).Valid()
  {
    if n > 0 {
      CollectedKeys(c, sns, n - 1);
      var prev := Collected(c, sns, n - 1);
      var k := sns.keys[n - 1] + Suffix(c);
      forall i | 0 <= i < n - 1
        ensures prev.keys[i] != k
      {
        SuffixedKeysDistinct(sns.keys, Suffix(c), i, n - 1);
      }
      PutFresh(prev, k, Entry(c, sns, n - 1));
    }
  }

  /** With distinct destination names, each destination's key holds its entry:
      its parameter (with its description), its topic, its topic reference. */
  lemma {:induction false} CollectedEntries(c: Collection, sns: Dict, n: nat)
    requires n <= |sns.keys| && Readable(sns, n) && NoDuplicates(sns.keys)
    ensures forall i :: 0 <= i < n ==> Collected(c, sns, n).Get(sns.keys[i] + Suffix(c)) == Some(Entry(c, sns, i))
  {
    if n > 0 {
      CollectedEntries(c, sns, n - 1);
      var prev := Collected(c, sns, n - 1);
      var k := sns.keys[n - 1] + Suffix(c);
      forall i | 0 <= i < n - 1
        ensures Collected(c, sns, n).Get(sns.keys[i] + Suffix(c)) == Some(Entry(c, sns, i))
      {
        SuffixedKeysDistinct(sns.keys, Suffix(c), i, n - 1);
      }
    }
  }

  /** `options.destinations && options.destinations.sns` */
  predicate SnsDestinationsRequested(options: Options) {
    options.destinations.Some? && Present(options.destinations.value.Get("sns"))
  }

  /** The destinations under `destinations.sns`; the enumerable keys of anything
      but an object are not modelled and count as none. */
  function SnsDestinations(options: Options): Dict
    requires SnsDestinationsRequested(options)
  {
    var v := options.destinations.value.Get("sns").value;
    if v.JObj? then v.obj else Empty
  }

  /** The fragment built once every destination has been read */
  function DestinationFragment(options: Options): Fragment
    requires SnsDestinationsRequested(options)
    requires Readable(SnsDestinations(options), |SnsDestinations(options).keys|)
  {
    var sns := SnsDestinations(options);
    var n := |sns.keys|;
    Fragment(map[
      Parameters := Collected(EmailParameters, sns, n),
      Resources := Collected(Topics, sns, n),
      Variables := Collected(TopicVariables, sns, n)],
      Some(JArr(TopicPolicies(options.name, sns, n))))
  }

  /** The fragment has parameters, resources and variables, one entry in each
      and one policy per destination; every policy grants publishing on the
      function's own name. */
  lemma DestinationFragmentParts(options: Options)
    requires SnsDestinationsRequested(options)
    requires Readable(SnsDestinations(options), |SnsDestinations(options).keys|)
    requires SnsDestinations(options).Valid()
    ensures
      var sns := SnsDestinations(options);
      var f := DestinationFragment(options);
      && f.sections.Keys == {Parameters, Resources, Variables}
      && KeyedBy(f.sections[Parameters].keys, sns, "Email", |sns.keys|)
      && KeyedBy(f.sections[Resources].keys, sns, "Topic", |sns.keys|)
      && KeyedBy(f.sections[Variables].keys, sns, "Topic", |sns.keys|)
      && f.policies == Some(JArr(TopicPolicies(options.name, sns, |sns.keys|)))
  {
    var sns := SnsDestinations(options);
    CollectedKeys(EmailParameters, sns, |sns.keys|);
    CollectedKeys(Topics, sns, |sns.keys|);
    CollectedKeys(TopicVariables, sns, |sns.keys|);
  }

  /** `buildSnsDestination`: nothing at all without SNS destinations; otherwise
      the loop over them, which fails on the first entry that cannot be read. */
  method BuildSnsDestination(options: Options) returns (r: Result<Option<Fragment>>)
    ensures !SnsDestinationsRequested(options) ==> r == Ok(None)
    ensures SnsDestinationsRequested(options) ==>
      var sns := SnsDestinations(options);
      && (r.Err? <==> !Readable(sns, |sns.keys|))
      && (r.Err? ==> exists i :: 0 <= i < |sns.keys| && Readable(sns, i) && Err(r.error) == Description(sns, i))
      && (r.Ok? ==> r == Ok(Some(DestinationFragment(options))))
  {
    if !SnsDestinationsRequested(options) {
      return Ok(None);
    }
    var sns := SnsDestinations(options);
    var parameters, resources, variables, policies := Empty, Empty, Empty, [];
    var i := 0;
    while i < |sns.keys|
      invariant 0 <= i <= |sns.keys| && Readable(sns, i)
      invariant parameters == Collected(EmailParameters, sns, i)
      invariant resources == Collected(Topics, sns, i)
      invariant variables == Collected(TopicVariables, sns, i)
      invariant policies == TopicPolicies(options.name, sns, i)
    {
      var d := sns.keys[i];
      var description := Description(sns, i);
      if description.Err? {
        return Err(description.error);
      }
      ReadableStep(sns, i);
      parameters := parameters.Put(d + "Email", EmailParameter(description.value));
      policies := policies + [TopicPermissions(d, options.name)];
      resources := resources.Put(d + "Topic", DestinationTopic(d));
      variables := variables.Put(d + "Topic", Ref(d + "Topic"));
      i := i + 1;
    }
    return Ok(Some(Fragment(map[Parameters := parameters, Resources := resources, Variables := variables],
      Some(JArr(policies)))));
  }
}

/** lib/cfn.js, `compileFunction` and `mergeArgumentsTemplate`: the fold that
    merges the builders' fragments into one template. Every key of every
    collection may be supplied once only; the `Policies` lists are
    concatenated. */
module Compile {
  import opened Wrappers
  import opened Json
  import opened Model

  /** The template as a value: the collections created so far and the
      `Policies` list, once one has been started. */
  datatype Doc = Doc(sections: map<Section, Dict>, policies: Option<seq<Json>>)

  /** `let template = {}` */
  const EmptyDoc: Doc := Doc(map[], None)

  /** The error for a key that the template's collection already has */
  function DuplicateError(s: Section, k: string): Error {
    Failure(SectionName(s) + " name used more than once: " + k)
  }

  /** `arg.hasOwnProperty(...)` on the `undefined` a builder may return */
  const UndefinedArgument: Error := TypeError("Cannot read property 'hasOwnProperty' of undefined")

  /** Collection `s` of the template, or the `{}` it is created as */
  function Existing(doc: Doc, s: Section): Dict {
    if s in doc.sections then doc.sections[s] else Empty
  }

  /** Collection `acc` once the first `n` keys of `d` have been copied into it,
      failing on the first key it already has. */
  function MergeKeys(s: Section, acc: Dict, d: Dict, n: nat): Result<Dict>
    requires n <= |d.keys|
  {
    if n == 0 then Ok(acc)
    else
      var prev :- MergeKeys(s, acc, d, n - 1);
      var k := d.keys[n - 1];
      if k in prev.keys then Err(DuplicateError(s, k)) else Ok(prev.Assign(k, d.Get(k)))
  }

  /** `mergeArgumentsTemplate(template, arg, s)`: the collection is created if
      missing, then the argument's keys are copied in, if it has the collection. */
  function MergeSection(doc: Doc, arg: Fragment, s: Section): Result<Doc> {
    var existing := Existing(doc, s);
    if s in arg.sections then
      var merged :- MergeKeys(s, existing, arg.sections[s], |arg.sections[s].keys|);
      Ok(doc.(sections := doc.sections[s := merged]))
    else Ok(doc.(sections := doc.sections[s := existing]))
  }

  /** The first `n` collections of `MergeOrder` merged from `arg` */
  function MergeSections(doc: Doc, arg: Fragment, n: nat): Result<Doc>
    requires n <= |MergeOrder|
  {
    if n == 0 then Ok(doc)
    else
      var prev :- MergeSections(doc, arg, n - 1);
      MergeSection(prev, arg, MergeOrder[n - 1])
  }

  /** The policies of `arg` that are concatenated: `arg.Policies` when it is a
      non-empty array, otherwise none. */
  function ValidPolicies(arg: Fragment): seq<Json> {
    if arg.policies.Some? && arg.policies.value.JArr? then arg.policies.value.items else []
  }

  function MergePolicies(doc: Doc, arg: Fragment): Doc {
    var items := ValidPolicies(arg);
    if items == [] then doc
    else doc.(policies := Some((if doc.policies.Some? then doc.policies.value else []) + items))
  }

  /** One argument of `compileFunction`: its seven collections, then its policies */
  function MergeArgument(doc: Doc, arg: Option<Fragment>): Result<Doc> {
    if arg.None? then Err(UndefinedArgument)
    else
      var merged :- MergeSections(doc, arg.value, |MergeOrder|);
      Ok(MergePolicies(merged, arg.value))
  }

  /** `compileFunction(...args)` */
  function Compile(args: seq<Option<Fragment>>): Result<Doc>
    decreases |args|
  {
    if args == [] then Ok(EmptyDoc)
    else
      var prev :- Compile(args[..|args| - 1]);
      MergeArgument(prev, args[|args| - 1])
  }

  // ----- what the fold computes, stated without the fold -----

  predicate AllPresent(args: seq<Option<Fragment>>) {
    forall i :: 0 <= i < |args| ==> args[i].Some?
  }

  /** The keys of collection `s` of every argument, in argument order */
  function AllKeys(args: seq<Option<Fragment>>, s: Section): seq<string>
    decreases |args|
  {
    if args == [] then []
    else AllKeys(args[..|args| - 1], s) + Contributed(args[|args| - 1], s).keys
  }

  /** The value the arguments supply for key `k` of collection `s`: that of the
      last argument listing the key (with no key repeated, the only one). */
  function Supplied(args: seq<Option<Fragment>>, s: Section, k: string): Option<Json>
    decreases |args|
  {
    if args == [] then None
    else
      var last := args[|args| - 1];
      if last.Some? && k in Sec(last.value, s).keys then Sec(last.value, s).Get(k)
      else Supplied(args[..|args| - 1], s, k)
  }

  /** The concatenated policies of every argument whose policies qualify */
  function AllPolicies(args: seq<Option<Fragment>>): seq<Json>
    decreases |args|
  {
    if args == [] then []
    else
      var last := args[|args| - 1];
      AllPolicies(args[..|args| - 1]) + if last.Some? then ValidPolicies(last.value) else []
  }

  lemma NoDuplicatesSnoc(a: seq<string>, k: string)
    ensures NoDuplicates(a + [k]) <==> NoDuplicates(a) && k !in a
  {
    NoDuplicatesAppend(a, [k]);
  }

  /** One more key copied */
  lemma AppendPrefixSnoc(pre: seq<string>, a: seq<string>, m: nat)
    requires m < |a|
    ensures pre + a[..m + 1] == (pre + a[..m]) + [a[m]]
  {
    assert a[..m + 1] == a[..m] + [a[m]];
  }

  lemma PrefixMembers(a: seq<string>, m: nat)
    requires m < |a|
    ensures forall x :: x in a[..m + 1] <==> x in a[..m] || x == a[m]
  {
    assert a[..m + 1] == a[..m] + [a[m]];
  }

  /** Copying keys into a collection: it succeeds exactly when no key repeats
      one already there, and the keys are appended in order. */
  lemma {:induction false} MergeKeysSpec(s: Section, acc: Dict, d: Dict, n: nat)
    requires n <= |d.keys| && NoDuplicates(acc.keys)
    ensures MergeKeys(s, acc, d, n).Ok? <==> NoDuplicates(acc.keys + d.keys[..n])
    ensures MergeKeys(s, acc, d, n).Ok? ==> MergeKeys(s, acc, d, n).value.keys == acc.keys + d.keys[..n]
  {
    if n > 0 {
      var m := n - 1;
      MergeKeysSpec(s, acc, d, m);
      AppendPrefixSnoc(acc.keys, d.keys, m);
      NoDuplicatesSnoc(acc.keys + d.keys[..m], d.keys[m]);
    }
  }

  /** Each key copied holds the value copied; the others keep theirs. */
  lemma {:induction false} MergeKeysGet(s: Section, acc: Dict, d: Dict, n: nat)
    requires n <= |d.keys| && MergeKeys(s, acc, d, n).Ok?
    ensures forall k :: MergeKeys(s, acc, d, n).value.Get(k) == if k in d.keys[..n] then d.Get(k) else acc.Get(k)
  {
    if n > 0 {
      var m := n - 1;
      MergeKeysGet(s, acc, d, m);
      PrefixMembers(d.keys, m);
      AssignGet(MergeKeys(s, acc, d, m).value, d.keys[m], d.Get(d.keys[m]));
    }
  }

  /** A failed copy names a key that repeats one before it. */
  lemma {:induction false} MergeKeysError(s: Section, acc: Dict, d: Dict, n: nat)
    requires n <= |d.keys| && NoDuplicates(acc.keys) && MergeKeys(s, acc, d, n).Err?
    ensures exists j :: (0 <= j < n && d.keys[j] in acc.keys + d.keys[..j]
      && MergeKeys(s, acc, d, n).error == DuplicateError(s, d.keys[j]))
  {
    var prev := MergeKeys(s, acc, d, n - 1);
    if prev.Err? {
      MergeKeysError(s, acc, d, n - 1);
    } else {
      MergeKeysSpec(s, acc, d, n - 1);
      assert d.keys[n - 1] in acc.keys + d.keys[..n - 1];
    }
  }

  /** `acc` with the keys of `d` appended, each holding its value in `d` */
  function Merged(acc: Dict, d: Dict): Dict {
    Dict(acc.keys + d.keys,
      map k | k in acc.vals.Keys + d.vals.Keys && (if k in d.keys then k in d.vals else k in acc.vals) ::
        if k in d.keys then d.vals[k] else acc.vals[k])
  }

  /** A key of the merged collection holds the value `d` gives it, if `d` lists it. */
  lemma MergedGet(acc: Dict, d: Dict)
    ensures forall k :: Merged(acc, d).Get(k) == if k in d.keys then d.Get(k) else acc.Get(k)
  {
  }

  /** Objects with the same keys and the same value under every key are equal. */
  lemma DictEquality(a: Dict, b: Dict)
    requires a.keys == b.keys && forall k :: a.Get(k) == b.Get(k)
    ensures a == b
  {
    assert forall k :: k in a.vals <==> a.Get(k).Some?;
    assert a.vals == b.vals;
  }

  /** `k` occurs twice in `ks` */
  predicate Repeats(ks: seq<string>, k: string) {
    exists i, j :: 0 <= i < j < |ks| && ks[i] == k && ks[j] == k
  }

  lemma RepeatsAppend(a: seq<string>, b: seq<string>, k: string)
    requires Repeats(a, k)
    ensures Repeats(a + b, k)
  {
    var i, j :| 0 <= i < j < |a| && a[i] == k && a[j] == k;
    assert (a + b)[i] == k && (a + b)[j] == k;
  }

  /** All keys of `d` copied: the merge succeeds exactly when no key repeats,
      and gives `acc` with `d`'s keys appended. */
  lemma MergeAllKeys(s: Section, acc: Dict, d: Dict)
    requires NoDuplicates(acc.keys)
    ensures MergeKeys(s, acc, d, |d.keys|).Ok? <==> NoDuplicates(acc.keys + d.keys)
    ensures MergeKeys(s, acc, d, |d.keys|).Ok? ==> MergeKeys(s, acc, d, |d.keys|).value == Merged(acc, d)
  {
    MergeKeysSpec(s, acc, d, |d.keys|);
    assert d.keys[..|d.keys|] == d.keys;
    var m := MergeKeys(s, acc, d, |d.keys|);
    if m.Ok? {
      MergeKeysGet(s, acc, d, |d.keys|);
      MergedGet(acc, d);
      DictEquality(m.value, Merged(acc, d));
    }
  }

  /** A failed copy names a key that occurs twice among `acc`'s and `d`'s. */
  lemma MergeAllKeysError(s: Section, acc: Dict, d: Dict)
    requires NoDuplicates(acc.keys) && MergeKeys(s, acc, d, |d.keys|).Err?
    ensures exists k :: MergeKeys(s, acc, d, |d.keys|).error == DuplicateError(s, k) && Repeats(acc.keys + d.keys, k)
  {
    MergeKeysError(s, acc, d, |d.keys|);
    var m := MergeKeys(s, acc, d, |d.keys|);
    var j :| 0 <= j < |d.keys| && d.keys[j] in acc.keys + d.keys[..j] && m.error == DuplicateError(s, d.keys[j]);
    var all := acc.keys + d.keys;
    var i :| 0 <= i < |acc.keys + d.keys[..j]| && (acc.keys + d.keys[..j])[i] == d.keys[j];
    assert all[i] == d.keys[j] && all[|acc.keys| + j] == d.keys[j];
  }

  /** One collection merged: it succeeds exactly when the argument repeats no
      key the template has (nor one of its own), appends the argument's keys,
      and otherwise fails naming a repeated key. */
  lemma MergeSectionSpec(doc: Doc, arg: Fragment, s: Section)
    requires NoDuplicates(Existing(doc, s).keys)
    ensures MergeSection(doc, arg, s).Ok? <==> NoDuplicates(Existing(doc, s).keys + Sec(arg, s).keys)
    ensures MergeSection(doc, arg, s).Ok? ==>
      MergeSection(doc, arg, s).value == doc.(sections := doc.sections[s := Merged(Existing(doc, s), Sec(arg, s))])
    ensures MergeSection(doc, arg, s).Err? ==>
      exists k :: MergeSection(doc, arg, s).error == DuplicateError(s, k) && Repeats(Existing(doc, s).keys + Sec(arg, s).keys, k)
  {
    var existing := Existing(doc, s);
    var d := Sec(arg, s);
    if s in arg.sections {
      MergeAllKeys(s, existing, d);
      if MergeKeys(s, existing, d, |d.keys|).Err? {
        MergeAllKeysError(s, existing, d);
      }
    } else {
      assert existing.keys + d.keys == existing.keys;
      MergedGet(existing, d);
      DictEquality(existing, Merged(existing, d));
    }
  }

  /** None of the first `n` collections of `arg` repeats a key of the
      template's (or one of its own). */
  predicate Fits(doc: Doc, arg: Fragment, n: nat)
    requires n <= |MergeOrder|
  {
    n == 0 || (Fits(doc, arg, n - 1) && NoDuplicates(Existing(doc, MergeOrder[n - 1]).keys + Sec(arg, MergeOrder[n - 1]).keys))
  }

  lemma {:induction false} FitsEverywhere(doc: Doc, arg: Fragment, n: nat)
    requires n <= |MergeOrder|
    ensures Fits(doc, arg, n) <==>
      forall m :: 0 <= m < n ==> NoDuplicates(Existing(doc, MergeOrder[m]).keys + Sec(arg, MergeOrder[m]).keys)
  {
    if n > 0 {
      FitsEverywhere(doc, arg, n - 1);
    }
  }

  /** The first `n` collections merged: the merge fails exactly when one of
      them would repeat a key, and then names a repeated key. */
  lemma {:induction false} MergeSectionsOk(doc: Doc, arg: Fragment, n: nat)
    requires n <= |MergeOrder|
    requires forall s :: NoDuplicates(Existing(doc, s).keys)
    ensures MergeSections(doc, arg, n).Ok? <==> Fits(doc, arg, n)
    ensures MergeSections(doc, arg, n).Err? ==>
      exists s, k :: MergeSections(doc, arg, n).error == DuplicateError(s, k)
        && Repeats(Existing(doc, s).keys + Sec(arg, s).keys, k)
  {
    if n > 0 {
      MergeSectionsOk(doc, arg, n - 1);
      if MergeSections(doc, arg, n - 1).Ok? {
        MergeSectionsStep(doc, arg, n);
      }
    }
  }

  /** The `n`-th collection merged after the ones before it succeeded */
  lemma MergeSectionsStep(doc: Doc, arg: Fragment, n: nat)
    requires 0 < n <= |MergeOrder| && MergeSections(doc, arg, n - 1).Ok?
    requires NoDuplicates(Existing(doc, MergeOrder[n - 1]).keys)
    ensures
      var keys := Existing(doc, MergeOrder[n - 1]).keys + Sec(arg, MergeOrder[n - 1]).keys;
      var r := MergeSections(doc, arg, n);
      && (r.Ok? <==> NoDuplicates(keys))
      && (r.Err? ==> exists k :: r.error == DuplicateError(MergeOrder[n - 1], k) && Repeats(keys, k))
  {
    var prev := MergeSections(doc, arg, n - 1).value;
    var s0 := MergeOrder[n - 1];
    assert Existing(prev, s0) == Existing(doc, s0) by {
      MergeSectionsUntouched(doc, arg, n - 1);
      IndexOfOrder(n - 1);
    }
    MergeSectionSpec(prev, arg, s0);
  }

  /** After the first `n` collections: the policies and every other collection
      are untouched, and only those collections have been created. */
  lemma {:induction false} MergeSectionsUntouched(doc: Doc, arg: Fragment, n: nat)
    requires n <= |MergeOrder| && MergeSections(doc, arg, n).Ok?
    ensures
      var r := MergeSections(doc, arg, n).value;
      && r.policies == doc.policies
      && (forall s :: s in r.sections <==> s in doc.sections || IndexOf(s) < n)
      && (forall s :: IndexOf(s) >= n ==> Existing(r, s) == Existing(doc, s))
  {
    if n > 0 {
      MergeSectionsUntouched(doc, arg, n - 1);
      IndexOfOrder(n - 1);
    }
  }

  /** The `n`-th collection merged: the collections before it are as they
      were, and it holds the template's keys followed by the argument's. */
  lemma MergeSectionsLast(doc: Doc, arg: Fragment, n: nat)
    requires 0 < n <= |MergeOrder| && MergeSections(doc, arg, n).Ok?
    requires NoDuplicates(Existing(doc, MergeOrder[n - 1]).keys)
    ensures MergeSections(doc, arg, n - 1).Ok?
    ensures
      var s0 := MergeOrder[n - 1];
      MergeSections(doc, arg, n).value.sections
      == MergeSections(doc, arg, n - 1).value.sections[s0 := Merged(Existing(doc, s0), Sec(arg, s0))]
  {
    var p := MergeSections(doc, arg, n - 1).value;
    var s0 := MergeOrder[n - 1];
    assert Existing(p, s0) == Existing(doc, s0) by {
      MergeSectionsUntouched(doc, arg, n - 1);
      IndexOfOrder(n - 1);
    }
    MergeSectionSpec(p, arg, s0);
  }

  /** After the first `n` collections, each of them holds the template's keys
      followed by the argument's. */
  lemma {:induction false} MergeSectionsMerged(doc: Doc, arg: Fragment, n: nat)
    requires n <= |MergeOrder| && MergeSections(doc, arg, n).Ok?
    requires forall s :: NoDuplicates(Existing(doc, s).keys)
    ensures forall s :: IndexOf(s) < n ==>
      Existing(MergeSections(doc, arg, n).value, s) == Merged(Existing(doc, s), Sec(arg, s))
  {
    if n > 0 {
      var s0 := MergeOrder[n - 1];
      var p, r := MergeSections(doc, arg, n - 1), MergeSections(doc, arg, n);
      MergeSectionsLast(doc, arg, n);
      MergeSectionsMerged(doc, arg, n - 1);
      IndexOfOrder(n - 1);
      forall s | IndexOf(s) < n ensures Existing(r.value, s) == Merged(Existing(doc, s), Sec(arg, s)) {
        if s == s0 {
          assert Existing(r.value, s) == r.value.sections[s0];
        } else {
          assert IndexOf(s) < n - 1;
          assert Existing(r.value, s) == Existing(p.value, s);
        }
      }
    }
  }

  /** Each collection's position in the merge order is its index. */
  lemma IndexOfOrder(i: nat)
    requires i < |MergeOrder|
    ensures IndexOf(MergeOrder[i]) == i
  {
  }

  /** A whole argument merged: every collection of the template is created,
      and holds the template's keys followed by the argument's. */
  lemma MergeArgumentSpec(doc: Doc, arg: Fragment)
    requires forall s :: NoDuplicates(Existing(doc, s).keys)
    ensures MergeArgument(doc, Some(arg)).Ok? <==>
      forall s :: NoDuplicates(Existing(doc, s).keys + Sec(arg, s).keys)
    ensures MergeArgument(doc, Some(arg)).Ok? ==>
      var r := MergeArgument(doc, Some(arg)).value;
      && r == MergePolicies(MergeSections(doc, arg, |MergeOrder|).value, arg)
      && (forall s :: s in r.sections)
      && (forall s :: Existing(r, s) == Merged(Existing(doc, s), Sec(arg, s)))
    ensures MergeArgument(doc, Some(arg)).Err? ==>
      exists s, k :: MergeArgument(doc, Some(arg)).error == DuplicateError(s, k)
        && Repeats(Existing(doc, s).keys + Sec(arg, s).keys, k)
  {
    MergeSectionsOk(doc, arg, |MergeOrder|);
    FitsEverywhere(doc, arg, |MergeOrder|);
    if MergeSections(doc, arg, |MergeOrder|).Ok? {
      MergeSectionsUntouched(doc, arg, |MergeOrder|);
      MergeSectionsMerged(doc, arg, |MergeOrder|);
    }
  }

  /** What an argument contributes to collection `s`; an undefined one, nothing */
  function Contributed(arg: Option<Fragment>, s: Section): Dict {
    if arg.Some? then Sec(arg.value, s) else Empty
  }

  /** Collection `s` of every argument merged in order: once no key repeats,
      their disjoint union. */
  function Union(args: seq<Option<Fragment>>, s: Section): Dict
    decreases |args|
  {
    if args == [] then Empty
    else Merged(Union(args[..|args| - 1], s), Contributed(args[|args| - 1], s))
  }

  /** The union lists every argument's keys of the collection, in argument order. */
  lemma {:induction false} UnionKeys(args: seq<Option<Fragment>>, s: Section)
    ensures Union(args, s).keys == AllKeys(args, s)
    decreases |args|
  {
    if args != [] {
      UnionKeys(args[..|args| - 1], s);
    }
  }

  /** Each key of the union holds the value the argument supplying it gives it. */
  lemma {:induction false} UnionGet(args: seq<Option<Fragment>>, s: Section, k: string)
    ensures Union(args, s).Get(k) == Supplied(args, s, k)
    decreases |args|
  {
    if args != [] {
      UnionGet(args[..|args| - 1], s, k);
      MergedGet(Union(args[..|args| - 1], s), Contributed(args[|args| - 1], s));
    }
  }

  /** The arguments the fold accepts: all defined, no key of a collection twice */
  ghost predicate Mergeable(args: seq<Option<Fragment>>) {
    AllPresent(args) && forall s :: NoDuplicates(AllKeys(args, s))
  }

  /** The error is that of an undefined argument, or names a key supplied twice. */
  ghost predicate Explains(args: seq<Option<Fragment>>, e: Error) {
    || (e == UndefinedArgument && !AllPresent(args))
    || exists s, k :: e == DuplicateError(s, k) && Repeats(AllKeys(args, s), k)
  }

  /** The template after the fold: no collection before the first argument, all
      seven after it, each the union of the arguments'. */
  ghost predicate Compiled(args: seq<Option<Fragment>>, doc: Doc) {
    && (forall s :: s in doc.sections <==> args != [])
    && (forall s :: Existing(doc, s) == Union(args, s))
  }

  /** The fold succeeds exactly when every argument is defined and no key of a
      collection is supplied twice; it then holds the union of each collection,
      and otherwise fails with an error that says why. */
  lemma {:induction false} CompileSpec(args: seq<Option<Fragment>>)
    ensures Compile(args).Ok? <==> Mergeable(args)
    ensures Compile(args).Ok? ==> Compiled(args, Compile(args).value)
    ensures Compile(args).Err? ==> Explains(args, Compile(args).error)
    decreases |args|
  {
    if args != [] {
      var prefix := args[..|args| - 1];
      CompileSpec(prefix);
      if Compile(prefix).Err? {
        CompileStepErr(args);
      } else if args[|args| - 1].None? {
        CompileStepUndefined(args);
      } else {
        CompileStepMerge(args);
      }
    }
  }

  /** How the arguments' facts extend by one more argument */
  lemma SnocFacts(args: seq<Option<Fragment>>)
    requires args != []
    ensures AllPresent(args) <==> AllPresent(args[..|args| - 1]) && args[|args| - 1].Some?
    ensures forall s :: AllKeys(args, s) == AllKeys(args[..|args| - 1], s) + Contributed(args[|args| - 1], s).keys
  {
    var prefix := args[..|args| - 1];
    assert forall i :: 0 <= i < |prefix| ==> prefix[i] == args[i];
  }

  lemma MergeablePrefix(args: seq<Option<Fragment>>)
    requires args != [] && Mergeable(args)
    ensures Mergeable(args[..|args| - 1])
  {
    SnocFacts(args);
    var prefix := args[..|args| - 1];
    forall s ensures NoDuplicates(AllKeys(prefix, s)) {
      assert NoDuplicates(AllKeys(args, s));
      NoDuplicatesAppend(AllKeys(prefix, s), Contributed(args[|args| - 1], s).keys);
    }
  }

  /** A failure before the last argument is the failure of the whole fold. */
  lemma CompileStepErr(args: seq<Option<Fragment>>)
    requires args != []
    requires
      var prefix := args[..|args| - 1];
      && Compile(prefix).Err? && !Mergeable(prefix) && Explains(prefix, Compile(prefix).error)
    ensures Compile(args) == Compile(args[..|args| - 1])
    ensures !Mergeable(args) && Explains(args, Compile(args).error)
  {
    var prefix := args[..|args| - 1];
    SnocFacts(args);
    if Mergeable(args) {
      MergeablePrefix(args);
    }
    var e := Compile(prefix).error;
    if e != UndefinedArgument || AllPresent(prefix) {
      var s, k :| e == DuplicateError(s, k) && Repeats(AllKeys(prefix, s), k);
      RepeatsAppend(AllKeys(prefix, s), Contributed(args[|args| - 1], s).keys, k);
    }
  }

  /** An undefined argument after a successful prefix fails the fold. */
  lemma CompileStepUndefined(args: seq<Option<Fragment>>)
    requires args != [] && Compile(args[..|args| - 1]).Ok? && args[|args| - 1].None?
    ensures Compile(args) == Err(UndefinedArgument) && !AllPresent(args)
  {
    SnocFacts(args);
  }

  /** A defined argument merged into the union of the ones before it */
  lemma CompileStepMerge(args: seq<Option<Fragment>>)
    requires args != [] && args[|args| - 1].Some?
    requires
      var prefix := args[..|args| - 1];
      Compile(prefix).Ok? && Mergeable(prefix) && Compiled(prefix, Compile(prefix).value)
    ensures Compile(args).Ok? <==> Mergeable(args)
    ensures Compile(args).Ok? ==> Compiled(args, Compile(args).value)
    ensures Compile(args).Err? ==> Explains(args, Compile(args).error)
  {
    var prefix := args[..|args| - 1];
    var doc := Compile(prefix).value;
    var arg := args[|args| - 1].value;
    assert Compile(args) == MergeArgument(doc, Some(arg));
    SnocFacts(args);
    forall s ensures Existing(doc, s).keys == AllKeys(prefix, s) {
      UnionKeys(prefix, s);
    }
    MergeArgumentSpec(doc, arg);
    assert forall s :: AllKeys(args, s) == Existing(doc, s).keys + Sec(arg, s).keys;
  }

  /** The template's `Policies`: every qualifying policy of every argument in
      order, and no list at all while there is none. */
  lemma {:induction false} CompilePolicies(args: seq<Option<Fragment>>)
    requires Compile(args).Ok?
    ensures Compile(args).value.policies == if AllPolicies(args) == [] then None else Some(AllPolicies(args))
    decreases |args|
  {
    if args != [] {
      var prefix := args[..|args| - 1];
      CompilePolicies(prefix);
      var arg := args[|args| - 1].value;
      var doc := Compile(prefix).value;
      MergeSectionsUntouched(doc, arg, |MergeOrder|);
      var merged := MergeSections(doc, arg, |MergeOrder|).value;
      assert Compile(args).value == MergePolicies(merged, arg);
      assert AllPolicies(args) == AllPolicies(prefix) + ValidPolicies(arg);
      if ValidPolicies(arg) == [] {
        assert AllPolicies(args) == AllPolicies(prefix);
      } else if AllPolicies(prefix) == [] {
        assert AllPolicies(args) == ValidPolicies(arg);
      }
    }
  }

  /** A failed copy stays failed whatever keys follow. */
  lemma {:induction false} MergeKeysErrStays(s: Section, acc: Dict, d: Dict, n: nat, m: nat)
    requires n <= m <= |d.keys| && MergeKeys(s, acc, d, n).Err?
    ensures MergeKeys(s, acc, d, m) == MergeKeys(s, acc, d, n)
    decreases m
  {
    if m > n {
      MergeKeysErrStays(s, acc, d, n, m - 1);
    }
  }

  /** A failed collection fails the argument whatever collections follow. */
  lemma {:induction false} MergeSectionsErrStays(doc: Doc, arg: Fragment, n: nat, m: nat)
    requires n <= m <= |MergeOrder| && MergeSections(doc, arg, n).Err?
    ensures MergeSections(doc, arg, m) == MergeSections(doc, arg, n)
    decreases m
  {
    if m > n {
      MergeSectionsErrStays(doc, arg, n, m - 1);
    }
  }

  /** The position of a collection in the merge order */
  function IndexOf(s: Section): (n: nat)
    ensures n < |MergeOrder| && MergeOrder[n] == s
  {
    match s
    case Metadata => 0
    case Parameters => 1
    case Mappings => 2
    case Conditions => 3
    case Resources => 4
    case Outputs => 5
    case Variables => 6
  }

  lemma MergeKeysNext(s: Section, acc: Dict, d: Dict, i: nat, prev: Dict)
    requires i < |d.keys| && MergeKeys(s, acc, d, i) == Ok(prev)
    ensures MergeKeys(s, acc, d, i + 1)
      == if d.keys[i] in prev.keys then Err(DuplicateError(s, d.keys[i])) else Ok(prev.Assign(d.keys[i], d.Get(d.keys[i])))
  {
  }

  lemma MergeSectionsNext(doc: Doc, arg: Fragment, n: nat, prev: Doc)
    requires 0 < n <= |MergeOrder| && MergeSections(doc, arg, n - 1) == Ok(prev)
    ensures MergeSections(doc, arg, n) == MergeSection(prev, arg, MergeOrder[n - 1])
  {
  }

  /** A key of some argument's collection is among all the keys. */
  lemma {:induction false} KeyInAllKeys(args: seq<Option<Fragment>>, s: Section, k: string, i: int)
    requires 0 <= i < |args| && args[i].Some? && k in Sec(args[i].value, s).keys
    ensures k in AllKeys(args, s)
    decreases |args|
  {
    if i < |args| - 1 {
      assert args[..|args| - 1][i] == args[i];
      KeyInAllKeys(args[..|args| - 1], s, k, i);
    }
  }

  /** With no key repeated, the value supplied for a key is that of the one
      argument listing it. */
  lemma {:induction false} SuppliedBy(args: seq<Option<Fragment>>, s: Section, k: string, i: int)
    requires 0 <= i < |args| && args[i].Some? && k in Sec(args[i].value, s).keys
    requires NoDuplicates(AllKeys(args, s))
    ensures Supplied(args, s, k) == Sec(args[i].value, s).Get(k)
    decreases |args|
  {
    if i < |args| - 1 {
      var prefix := args[..|args| - 1];
      assert prefix[i] == args[i];
      KeyInAllKeys(prefix, s, k, i);
      NoDuplicatesAppend(AllKeys(prefix, s), Contributed(args[|args| - 1], s).keys);
      SuppliedBy(prefix, s, k, i);
    }
  }

  /** Arguments that carry no policies contribute none. */
  lemma {:induction false} AllPoliciesNone(args: seq<Option<Fragment>>)
    requires forall i :: 0 <= i < |args| ==> args[i].Some? && args[i].value.policies.None?
    ensures AllPolicies(args) == []
    decreases |args|
  {
    if args != [] {
      AllPoliciesNone(args[..|args| - 1]);
    }
  }

  /** The template object that `compileFunction` builds and the later passes
      of `buildFunction` update in place. */
  class Template {
    var sections: map<Section, Dict>
    var policies: Option<seq<Json>>
    /** `AWSTemplateFormatVersion` and `Description`, set on a full template only */
    var formatVersion: Option<string>
    var description: Option<string>

    function Value(): Doc
      reads this
    {
      Doc(sections, policies)
    }

    /** `template.AWSTemplateFormatVersion = version; template.Description = description` */
    method Describe(version: string, text: string)
      modifies this
      ensures Value() == old(Value())
      ensures formatVersion == Some(version) && description == Some(text)
    {
      formatVersion := Some(version);
      description := Some(text);
    }

    /** `{}` */
    constructor ()
      ensures Value() == EmptyDoc && formatVersion.None? && description.None?
    {
      sections := map[];
      policies := None;
      formatVersion := None;
      description := None;
    }

    /** `mergeArgumentsTemplate(template, arg, s)`: creates the collection if
        missing, then copies the argument's keys one by one, throwing on the
        first key the collection already has. */
    method MergeArgumentsTemplate(arg: Fragment, s: Section) returns (err: Option<Error>)
      modifies this
      ensures err.None? <==> MergeSection(old(Value()), arg, s).Ok?
      ensures err.Some? ==> MergeSection(old(Value()), arg, s) == Err(err.value)
      ensures err.None? ==> Value() == MergeSection(old(Value()), arg, s).value
      ensures formatVersion == old(formatVersion) && description == old(description)
    {
      if s !in sections {
        sections := sections[s := Empty];
      }
      err := None;
      if s in arg.sections {
        err := CopyKeys(s, arg.sections[s]);
      }
    }

    /** The `forEach` over the argument's keys of collection `s` */
    method CopyKeys(s: Section, d: Dict) returns (err: Option<Error>)
      requires s in sections
      modifies this
      ensures s in sections && sections == old(sections)[s := sections[s]]
      ensures err.None? ==> MergeKeys(s, old(sections[s]), d, |d.keys|) == Ok(sections[s])
      ensures err.Some? ==> MergeKeys(s, old(sections[s]), d, |d.keys|) == Err(err.value)
      ensures policies == old(policies)
      ensures formatVersion == old(formatVersion) && description == old(description)
    {
      ghost var existing := sections[s];
      var i := 0;
      while i < |d.keys|
        invariant 0 <= i <= |d.keys|
        invariant s in sections && sections == old(sections)[s := sections[s]]
        invariant policies == old(policies)
        invariant formatVersion == old(formatVersion) && description == old(description)
        invariant MergeKeys(s, existing, d, i) == Ok(sections[s])
      {
        var k := d.keys[i];
        MergeKeysNext(s, existing, d, i, sections[s]);
        if k in sections[s].keys {
          MergeKeysErrStays(s, existing, d, i + 1, |d.keys|);
          return Some(DuplicateError(s, k));
        }
        sections := sections[s := sections[s].Assign(k, d.Get(k))];
        i := i + 1;
      }
      return None;
    }

    /** One of the seven `mergeArgumentsTemplate` calls for an argument, in
        terms of the argument's merge: the collections before `s` are merged. */
    method MergeStep(arg: Fragment, s: Section, ghost doc: Doc) returns (err: Option<Error>)
      requires MergeSections(doc, arg, IndexOf(s)) == Ok(Value())
      modifies this
      ensures err.None? ==> MergeSections(doc, arg, IndexOf(s) + 1) == Ok(Value())
      ensures err.Some? ==> MergeSections(doc, arg, |MergeOrder|) == Err(err.value)
      ensures formatVersion == old(formatVersion) && description == old(description)
    {
      var n := IndexOf(s);
      ghost var prev := Value();
      err := MergeArgumentsTemplate(arg, s);
      MergeSectionsNext(doc, arg, n + 1, prev);
      if err.Some? {
        MergeSectionsErrStays(doc, arg, n + 1, |MergeOrder|);
      }
    }

    /** The seven `mergeArgumentsTemplate` calls for one argument */
    method MergeCollections(arg: Fragment) returns (err: Option<Error>)
      modifies this
      ensures err.None? ==> MergeSections(old(Value()), arg, |MergeOrder|) == Ok(Value())
      ensures err.Some? ==> MergeSections(old(Value()), arg, |MergeOrder|) == Err(err.value)
      ensures formatVersion == old(formatVersion) && description == old(description)
    {
      ghost var doc := Value();
      err := MergeStep(arg, Metadata, doc);
      if err.Some? {
        return;
      }
      err := MergeStep(arg, Parameters, doc);
      if err.Some? {
        return;
      }
      err := MergeStep(arg, Mappings, doc);
      if err.Some? {
        return;
      }
      err := MergeStep(arg, Conditions, doc);
      if err.Some? {
        return;
      }
      err := MergeStep(arg, Resources, doc);
      if err.Some? {
        return;
      }
      err := MergeStep(arg, Outputs, doc);
      if err.Some? {
        return;
      }
      err := MergeStep(arg, Variables, doc);
    }

    /** One argument: its seven collections, then the concatenation of its
        policies, if they qualify. */
    method MergeFragment(arg: Fragment) returns (err: Option<Error>)
      modifies this
      ensures err.None? <==> MergeArgument(old(Value()), Some(arg)).Ok?
      ensures err.Some? ==> MergeArgument(old(Value()), Some(arg)) == Err(err.value)
      ensures err.None? ==> Value() == MergeArgument(old(Value()), Some(arg)).value
      ensures formatVersion == old(formatVersion) && description == old(description)
    {
      ghost var doc := Value();
      err := MergeCollections(arg);
      if err.Some? {
        return;
      }
      assert MergeSections(doc, arg, |MergeOrder|) == Ok(Value());
      var items := ValidPolicies(arg);
      if items != [] {
        if policies.None? {
          policies := Some([]);
        }
        policies := Some(policies.value + items);
      }
    }
  }

  /** One more pass of the fold merges the next argument into what the previous passes built. */
  lemma CompileNext(args: seq<Option<Fragment>>, i: nat, doc: Doc)
    requires i < |args| && Compile(args[..i]) == Ok(doc)
    ensures Compile(args[..i + 1]) == MergeArgument(doc, args[i])
  {
    assert args[..i + 1][..i] == args[..i];
  }

  /** A failed fold stays failed whatever arguments follow. */
  lemma {:induction false} CompileErrStays(args: seq<Option<Fragment>>, n: nat, m: nat)
    requires n <= m <= |args| && Compile(args[..n]).Err?
    ensures Compile(args[..m]) == Compile(args[..n])
    decreases m
  {
    if m > n {
      CompileErrStays(args, n, m - 1);
      assert args[..m][..m - 1] == args[..m - 1];
    }
  }

  /** `compileFunction(...args)`: a new template with every argument merged
      into it in order, the first failure ending the loop. */
  method CompileFunction(args: seq<Option<Fragment>>) returns (r: Result<Template>)
    ensures r.Ok? ==> fresh(r.value) && Compile(args) == Ok(r.value.Value())
    ensures r.Ok? ==> r.value.formatVersion.None? && r.value.description.None?
    ensures r.Err? ==> Compile(args) == Err(r.error)
  {
    var template := new Template();
    for i := 0 to |args|
      invariant Compile(args[..i]) == Ok(template.Value())
      invariant template.formatVersion.None? && template.description.None?
    {
      CompileNext(args, i, template.Value());
      if args[i].None? {
        CompileErrStays(args, i + 1, |args|);
        assert args[..|args|] == args;
        return Err(UndefinedArgument);
      }
      var err := template.MergeFragment(args[i].value);
      if err.Some? {
        CompileErrStays(args, i + 1, |args|);
        assert args[..|args|] == args;
        return Err(err.value);
      }
    }
    assert args[..|args|] == args;
    return Ok(template);
  }
}

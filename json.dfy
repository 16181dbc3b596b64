/** JSON values as they appear in a CloudFormation template.
    A JavaScript object is a `Dict`: its keys in iteration order together with
    the map from each key to its value. The cloudfriend intrinsic functions are
    opaque constructors: the compiler only places them in the document and
    never evaluates them. */
module Json {
  import opened Wrappers

  datatype Json =
    | JNull
    | JBool(b: bool)
    | JNum(n: int)
    | JStr(s: string)
    | JArr(items: seq<Json>)
    | JObj(obj: Dict)
      // cloudfriend intrinsics: cf.ref, cf.getAtt, cf.join, cf.if
    | Ref(target: string)
    | GetAtt(resource: string, attribute: string)
    | Join(separator: string, parts: seq<Json>)
    | If(condition: string, whenTrue: Json, whenFalse: Json)

  predicate NoDuplicates(ks: seq<string>) {
    forall i, j :: 0 <= i < j < |ks| ==> ks[i] != ks[j]
  }

  /** An object: `keys` is `Object.keys(...)` and `vals` holds the value of each
      key; a listed key without a value holds `undefined`. */
  datatype Dict = Dict(keys: seq<string>, vals: map<string, Json>) {

    /** Every JavaScript object satisfies this: each key listed once, and every value under a listed key. */
    predicate Valid() {
      NoDuplicates(keys) && forall k | k in vals :: k in keys
    }

    /** `d[k]`, None standing for undefined */
    function Get(k: string): Option<Json> {
      if k in vals then Some(vals[k]) else None
    }

    /** An entry of an object literal: the key goes last. The literals of the
        model never repeat a key (`LiteralValid` states when the result is valid). */
    function With(k: string, v: Json): Dict {
      Dict(keys + [k], vals[k := v])
    }

    /** The assignment `d[k] = v`: an existing key keeps its position, a new key goes last. */
    function Put(k: string, v: Json): Dict {
      Dict(if k in keys then keys else keys + [k], vals[k := v])
    }

    /** The assignment `d[k] = o` of a value that may be undefined (None):
        the key is listed either way. */
    function Assign(k: string, o: Option<Json>): Dict {
      if o.Some? then Put(k, o.value)
      else Dict(if k in keys then keys else keys + [k], vals - {k})
    }
  }

  const Empty: Dict := Dict([], map[])

  /** Keys shared by two key lists */
  predicate Disjoint(a: seq<string>, b: seq<string>) {
    forall k :: k in a ==> k !in b
  }

  /** What an assignment does to an object: the key now holds the value, every
      other key is untouched, the key order only grows by the new key at the end,
      and validity is kept. */
  lemma PutProperties(d: Dict, k: string, v: Json)
    ensures d.Put(k, v).Get(k) == Some(v)
    ensures forall k' :: k' != k ==> d.Put(k, v).Get(k') == d.Get(k')
    ensures k in d.keys ==> d.Put(k, v).keys == d.keys
    ensures k !in d.keys ==> d.Put(k, v).keys == d.keys + [k]
    ensures |d.keys| <= |d.Put(k, v).keys| && d.Put(k, v).keys[..|d.keys|] == d.keys
    ensures forall k' :: k' in d.Put(k, v).keys <==> k' in d.keys || k' == k
    ensures d.Valid() ==> d.Put(k, v).Valid()
  {
    if k !in d.keys && d.Valid() {
      NoDuplicatesAppend(d.keys, [k]);
    }
  }

  /** An assignment lists the key, keeps the others and keeps validity. */
  lemma PutValid(d: Dict, k: string, v: Json)
    ensures forall k' :: k' in d.Put(k, v).keys <==> k' in d.keys || k' == k
    ensures d.Valid() ==> d.Put(k, v).Valid()
  {
    PutProperties(d, k, v);
  }

  /** An assignment keeps the existing keys as a prefix, lists the key, and keeps validity. */
  lemma PutGrows(d: Dict, k: string, v: Json)
    ensures |d.keys| <= |d.Put(k, v).keys| && d.Put(k, v).keys[..|d.keys|] == d.keys
    ensures forall k' :: k' in d.Put(k, v).keys <==> k' in d.keys || k' == k
    ensures d.Valid() ==> d.Put(k, v).Valid()
  {
    PutProperties(d, k, v);
  }

  /** Assigning to a key the object does not have yet appends it. */
  lemma PutFresh(d: Dict, k: string, v: Json)
    requires k !in d.keys
    ensures d.Put(k, v) == d.With(k, v)
    ensures d.Valid() ==> d.Put(k, v).Valid()
  {
    if d.Valid() {
      NoDuplicatesAppend(d.keys, [k]);
    }
  }

  /** The first `n` entries of the object literal with keys `ks` and values `vs` */
  function Literal(ks: seq<string>, vs: seq<Json>, n: nat): Dict
    requires n <= |ks| == |vs|
  {
    if n == 0 then Empty else Literal(ks, vs, n - 1).With(ks[n - 1], vs[n - 1])
  }

  /** A literal lists its keys in order, and each of them holds a value. */
  lemma {:induction false} LiteralKeys(ks: seq<string>, vs: seq<Json>, n: nat)
    requires n <= |ks| == |vs|
    ensures Literal(ks, vs, n).keys == ks[..n]
    ensures forall k :: k in Literal(ks, vs, n).vals <==> k in ks[..n]
  {
    if n > 0 {
      LiteralKeys(ks, vs, n - 1);
      assert ks[..n] == ks[..n - 1] + [ks[n - 1]];
    }
  }

  /** A literal without repeated keys is valid ... */
  lemma {:induction false} LiteralIsValid(ks: seq<string>, vs: seq<Json>, n: nat)
    requires n <= |ks| == |vs| && NoDuplicates(ks)
    ensures Literal(ks, vs, n).Valid()
  {
    if n > 0 {
      var m := n - 1;
      LiteralIsValid(ks, vs, m);
      LiteralKeys(ks, vs, m);
      forall j | 0 <= j < m ensures ks[..m][j] != ks[m] {
        assert ks[..m][j] == ks[j];
      }
      LiteralValid(Literal(ks, vs, m), ks[m], vs[m]);
    }
  }

  /** ... and gives back each value under its key. */
  lemma {:induction false} LiteralGet(ks: seq<string>, vs: seq<Json>, n: nat)
    requires n <= |ks| == |vs| && NoDuplicates(ks)
    ensures forall i :: 0 <= i < n ==> Literal(ks, vs, n).Get(ks[i]) == Some(vs[i])
  {
    if n > 0 {
      var m := n - 1;
      LiteralGet(ks, vs, m);
      forall i | 0 <= i < m ensures Literal(ks, vs, n).Get(ks[i]) == Some(vs[i]) {
        assert ks[i] != ks[m];
      }
    }
  }

  /** A literal of distinct keys lists them in order, is valid, and maps each key to its value. */
  lemma LiteralComplete(ks: seq<string>, vs: seq<Json>)
    requires |ks| == |vs| && NoDuplicates(ks)
    ensures Literal(ks, vs, |ks|).keys == ks && Literal(ks, vs, |ks|).Valid()
    ensures forall i :: 0 <= i < |ks| ==> Literal(ks, vs, |ks|).Get(ks[i]) == Some(vs[i])
  {
    LiteralKeys(ks, vs, |ks|);
    assert ks[..|ks|] == ks;
    LiteralIsValid(ks, vs, |ks|);
    LiteralGet(ks, vs, |ks|);
  }

  /** A literal's first `n` entries depend on the first `n` values only. */
  lemma {:induction false} LiteralFrame(ks: seq<string>, vs: seq<Json>, ws: seq<Json>, n: nat)
    requires n <= |ks| == |vs| == |ws|
    requires forall j :: 0 <= j < n ==> vs[j] == ws[j]
    ensures Literal(ks, vs, n) == Literal(ks, ws, n)
  {
    if n > 0 {
      LiteralFrame(ks, vs, ws, n - 1);
    }
  }

  /** Assigning to a key a literal already has replaces its value in place. */
  lemma {:induction false} LiteralPut(ks: seq<string>, vs: seq<Json>, n: nat, i: nat, v: Json)
    requires n <= |ks| == |vs| && NoDuplicates(ks) && i < n
    ensures Literal(ks, vs, n).Put(ks[i], v) == Literal(ks, vs[i := v], n)
  {
    var m := n - 1;
    if i == m {
      LiteralFrame(ks, vs, vs[i := v], m);
      PutLast(Literal(ks, vs, m), ks[m], vs[m], v);
    } else {
      LiteralPut(ks, vs, m, i, v);
      LiteralPutEarlier(ks, vs, m, i, v);
    }
  }

  /** The step of `LiteralPut` for a key before the last entry: the assignment
      passes under that entry. */
  lemma LiteralPutEarlier(ks: seq<string>, vs: seq<Json>, m: nat, i: nat, v: Json)
    requires m < |ks| == |vs| && NoDuplicates(ks) && i < m
    requires Literal(ks, vs, m).Put(ks[i], v) == Literal(ks, vs[i := v], m)
    ensures Literal(ks, vs, m + 1).Put(ks[i], v) == Literal(ks, vs[i := v], m + 1)
  {
    var ws := vs[i := v];
    var before := Literal(ks, vs, m);
    LiteralKeys(ks, vs, m);
    assert ks[..m][i] == ks[i];
    assert ks[i] in before.keys;
    assert ks[i] != ks[m] && ws[m] == vs[m];
    PutBeforeLast(before, ks[m], vs[m], ks[i], v);
  }

  /** After `d[k] = o`, key `k` holds `o` and every other key what it held. */
  lemma AssignGet(d: Dict, k: string, o: Option<Json>)
    ensures forall x :: d.Assign(k, o).Get(x) == if x == k then o else d.Get(x)
  {
  }

  /** Assigning to a key listed before the last entry commutes with that entry. */
  lemma PutBeforeLast(d: Dict, last: string, x: Json, k: string, v: Json)
    requires k in d.keys && k != last
    ensures d.With(last, x).Put(k, v) == d.Put(k, v).With(last, x)
  {
    UpdatesCommute(d.vals, last, x, k, v);
  }

  /** Reassigning the last entry of a literal */
  lemma PutLast(d: Dict, k: string, v: Json, w: Json)
    ensures d.With(k, v).Put(k, w) == d.With(k, w)
  {
    assert k in d.With(k, v).keys;
  }

  /** Reassigning the entry before the last of a literal */
  lemma PutSecondLast(d: Dict, a: string, x: Json, b: string, y: Json, z: Json)
    requires a != b
    ensures d.With(a, x).With(b, y).Put(a, z) == d.With(a, z).With(b, y)
  {
    assert a in d.With(a, x).With(b, y).keys;
    UpdatesCommute(d.vals[a := x], b, y, a, z);
  }

  lemma UpdatesCommute(m: map<string, Json>, a: string, x: Json, b: string, y: Json)
    requires a != b
    ensures m[a := x][b := y] == m[b := y][a := x]
  {
  }

  /** A literal entry under a fresh key keeps the object valid. */
  lemma LiteralValid(d: Dict, k: string, v: Json)
    requires d.Valid() && k !in d.keys
    ensures d.With(k, v).Valid()
  {
    NoDuplicatesAppend(d.keys, [k]);
  }

  lemma NoDuplicatesAppend(a: seq<string>, b: seq<string>)
    ensures NoDuplicates(a + b) <==> NoDuplicates(a) && NoDuplicates(b) && Disjoint(a, b)
  {
    var ab := a + b;
    if NoDuplicates(a) && NoDuplicates(b) && Disjoint(a, b) {
      forall i, j | 0 <= i < j < |ab| ensures ab[i] != ab[j] {
        if j < |a| {
          assert ab[i] == a[i] && ab[j] == a[j];
        } else if i >= |a| {
          assert ab[i] == b[i - |a|] && ab[j] == b[j - |a|];
        } else {
          assert ab[i] == a[i] && ab[j] == b[j - |a|];
          assert a[i] in a && b[j - |a|] in b;
        }
      }
    }
    if NoDuplicates(ab) {
      forall i, j | 0 <= i < j < |a| ensures a[i] != a[j] {
        assert a[i] == ab[i] && a[j] == ab[j];
      }
      forall i, j | 0 <= i < j < |b| ensures b[i] != b[j] {
        assert b[i] == ab[|a| + i] && b[j] == ab[|a| + j];
      }
      forall k | k in a ensures k !in b {
        var i :| 0 <= i < |a| && a[i] == k;
        forall j | 0 <= j < |b| ensures b[j] != k {
          assert ab[i] == a[i] && ab[|a| + j] == b[j];
        }
      }
    }
  }

  /** JavaScript truthiness; None stands for undefined. */
  predicate Truthy(v: Json) {
    match v
    case JNull => false
    case JBool(b) => b
    case JNum(n) => n != 0
    case JStr(s) => s != ""
    case _ => true
  }

  predicate Present(o: Option<Json>) {
    o.Some? && Truthy(o.value)
  }

  /** A property of an object; primitives and arrays have none of the properties read here. */
  function Lookup(v: Json, k: string): Option<Json> {
    if v.JObj? then v.obj.Get(k) else None
  }

  /** An object as an optional value, None standing for undefined */
  function AsValue(d: Option<Dict>): Option<Json> {
    if d.Some? then Some(JObj(d.value)) else None
  }

  /** `o.k` where `o` may itself be undefined (None) or null: reading a property of either is a TypeError. */
  function Member(o: Option<Json>, k: string): (r: Result<Option<Json>>)
    ensures r.Err? <==> o.None? || o.value.JNull?
    ensures r.Ok? ==> r.value == Lookup(o.value, k)
  {
    if o.None? then Err(TypeError("Cannot read property '" + k + "' of undefined"))
    else if o.value.JNull? then Err(TypeError("Cannot read property '" + k + "' of null"))
    else Ok(Lookup(o.value, k))
  }

  /** `o.k1.k2`: reading through a missing or null `o.k1` is a TypeError. */
  function Member2(o: Option<Json>, k1: string, k2: string): (r: Result<Option<Json>>)
    ensures r.Err? <==> Member(o, k1).Err? || Member(Member(o, k1).value, k2).Err?
    ensures r.Ok? ==> r.value == Lookup(Member(o, k1).value.value, k2)
  {
    var inner :- Member(o, k1);
    Member(inner, k2)
  }
}

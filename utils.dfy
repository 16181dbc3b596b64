/** The two string helpers of lib/utils.js. */
module Utils {
  import opened Text

  /** `s.charAt(0).toUpperCase() + s.slice(1)` */
  function CapitalizeFirst(s: string): (r: string)
    ensures |r| == |s|
    ensures s != [] ==> r[0] == ToUpperChar(s[0])
    ensures s != [] ==> r[1..] == s[1..]
  {
    if s == [] then [] else [ToUpperChar(s[0])] + s[1..]
  }

  /** Capitalising leaves a string alone exactly when it does not start with a lower-case letter. */
  lemma CapitalizeFirstFixedPoint(s: string)
    ensures CapitalizeFirst(s) == s <==> (s == [] || !IsLowerAscii(s[0]))
  {
    if s != [] && IsLowerAscii(s[0]) {
      assert CapitalizeFirst(s)[0] != s[0];
    }
  }

  lemma CapitalizeFirstIdempotent(s: string)
    ensures CapitalizeFirst(CapitalizeFirst(s)) == CapitalizeFirst(s)
  {
    CapitalizeFirstFixedPoint(CapitalizeFirst(s));
  }

  function CountChar(s: string, c: char): nat {
    if s == [] then 0 else (if s[0] == c then 1 else 0) + CountChar(s[1..], c)
  }

  /** `s.split(sep)` for a one-character separator */
  function Split(s: string, sep: char): (parts: seq<string>)
    ensures |parts| >= 1
  {
    if s == [] then [""]
    else
      var rest := Split(s[1..], sep);
      if s[0] == sep then [""] + rest
      else [[s[0]] + rest[0]] + rest[1..]
  }

  /** `parts.join(sep)` */
  function JoinWith(parts: seq<string>, sep: char): string
    requires |parts| >= 1
  {
    if |parts| == 1 then parts[0] else parts[0] + [sep] + JoinWith(parts[1..], sep)
  }

  /** Splitting yields one more piece than there are separators, none holding a separator,
      and joining the pieces back gives the original string. */
  lemma {:induction false} SplitProperties(s: string, sep: char)
    ensures |Split(s, sep)| == CountChar(s, sep) + 1
    ensures forall i :: 0 <= i < |Split(s, sep)| ==> sep !in Split(s, sep)[i]
    ensures JoinWith(Split(s, sep), sep) == s
  {
    if s != [] {
      SplitProperties(s[1..], sep);
      var rest := Split(s[1..], sep);
      if s[0] == sep {
        assert ([""] + rest)[1..] == rest;
      } else {
        var parts := Split(s, sep);
        assert parts[1..] == rest[1..];
        assert forall i :: 1 <= i < |parts| ==> parts[i] == rest[i];
        if |rest| == 1 {
          assert JoinWith(parts, sep) == [s[0]] + rest[0] == [s[0]] + s[1..];
        } else {
          assert JoinWith(parts, sep) == [s[0]] + rest[0] + [sep] + JoinWith(rest[1..], sep);
          assert JoinWith(rest, sep) == rest[0] + [sep] + JoinWith(rest[1..], sep);
        }
      }
    }
  }

  /** Result of `splitOnComma`: '' for a falsy (empty) input, otherwise an array of strings. */
  datatype SplitResult = EmptyString | Pieces(parts: seq<string>)

  function SplitOnComma(str: string): (r: SplitResult)
    ensures r.EmptyString? <==> str == ""
    ensures r.Pieces? ==> |r.parts| == |Split(str, ',')| == CountChar(str, ',') + 1
    ensures r.Pieces? ==> forall i :: 0 <= i < |r.parts| ==>
      Trim(Split(str, ',')[i]) == r.parts[i] && ',' !in r.parts[i]
  {
    if str == "" then EmptyString
    else
      var raw := Split(str, ',');
      SplitProperties(str, ',');
      var parts := seq(|raw|, i requires 0 <= i < |raw| => Trim(raw[i]));
      TrimKeepsOut(raw, ',');
      Pieces(parts)
  }

  /** Trimming a piece keeps it free of a character it did not contain. */
  lemma TrimKeepsOut(raw: seq<string>, c: char)
    requires forall i :: 0 <= i < |raw| ==> c !in raw[i]
    ensures forall i :: 0 <= i < |raw| ==> c !in Trim(raw[i])
  {
    forall i | 0 <= i < |raw| ensures c !in Trim(raw[i]) {
      var r := Trim(raw[i]);
      var j :| TrimmedAt(raw[i], r, j);
      forall k | 0 <= k < |r| ensures r[k] != c {
        assert r[k] == raw[i][j + k];
      }
    }
  }
}

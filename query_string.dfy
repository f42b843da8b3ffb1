/**
 * A query string as `key=value` pairs joined by `&`, and the parser a server
 * applies to it: split at every `&`, then split each part at its first `=`.
 * The parser is the partner against which the transport's query is proved.
 */
module QueryString {

  /** `parts` joined with `sep` between neighbours. */
  function Join(parts: seq<string>, sep: char): string
    decreases |parts|
  {
    if parts == [] then ""
    else if |parts| == 1 then parts[0]
    else parts[0] + [sep] + Join(parts[1..], sep)
  }

  /** `s` cut at every `sep`; there is always at least one part. */
  function Split(s: string, sep: char): (parts: seq<string>)
    ensures |parts| > 0
    decreases |s|
  {
    if s == [] then [""]
    else
      var rest := Split(s[1..], sep);
      if s[0] == sep then [""] + rest
      else [[s[0]] + rest[0]] + rest[1..]
  }

  /** `s` cut at its first `sep`: the text before it and the text after it. */
  function SplitFirst(s: string, sep: char): (string, string)
    decreases |s|
  {
    if s == [] then ("", "")
    else if s[0] == sep then ("", s[1..])
    else
      var (key, value) := SplitFirst(s[1..], sep);
      ([s[0]] + key, value)
  }

  function Param(p: (string, string)): string {
    p.0 + "=" + p.1
  }

  function Params(ps: seq<(string, string)>): (r: seq<string>)
    ensures |r| == |ps|
    ensures forall i :: 0 <= i < |ps| ==> r[i] == Param(ps[i])
  {
    if ps == [] then [] else [Param(ps[0])] + Params(ps[1..])
  }

  /** The query string of a list of parameters, in their order. */
  function JoinParams(ps: seq<(string, string)>): string {
    Join(Params(ps), '&')
  }

  function ParsePairs(parts: seq<string>): (r: seq<(string, string)>)
    ensures |r| == |parts|
  {
    if parts == [] then [] else [SplitFirst(parts[0], '=')] + ParsePairs(parts[1..])
  }

  /** What a server reads out of a query string. */
  function ParseQuery(q: string): seq<(string, string)> {
    ParsePairs(Split(q, '&'))
  }

  /** Keys without `&` or `=`, values without `&`: then the query parses back. */
  predicate WellFormed(ps: seq<(string, string)>) {
    forall i :: 0 <= i < |ps| ==> '&' !in ps[i].0 && '=' !in ps[i].0 && '&' !in ps[i].1
  }

  lemma {:induction false} SplitAppend(a: string, t: string, sep: char)
    requires sep !in a
    ensures Split(a + t, sep) == [a + Split(t, sep)[0]] + Split(t, sep)[1..]
    decreases |a|
  {
    if a == [] {
      var parts := Split(t, sep);
      assert a + t == t;
      assert a + parts[0] == parts[0];
      assert [parts[0]] + parts[1..] == parts;
    } else {
      assert (a + t)[0] == a[0] && (a + t)[1..] == a[1..] + t;
      SplitAppend(a[1..], t, sep);
      assert [a[0]] + (a[1..] + Split(t, sep)[0]) == a + Split(t, sep)[0];
    }
  }

  /** Splitting undoes joining, when no part contains the separator. */
  lemma {:induction false} SplitJoin(parts: seq<string>, sep: char)
    requires |parts| > 0
    requires forall i :: 0 <= i < |parts| ==> sep !in parts[i]
    ensures Split(Join(parts, sep), sep) == parts
    decreases |parts|
  {
    if |parts| == 1 {
      SplitAppend(parts[0], "", sep);
      assert parts[0] + "" == parts[0];
    } else {
      var rest := Join(parts[1..], sep);
      SplitJoin(parts[1..], sep);
      assert ([sep] + rest)[0] == sep && ([sep] + rest)[1..] == rest;
      assert Split([sep] + rest, sep) == [""] + parts[1..];
      assert parts[0] + [sep] + rest == parts[0] + ([sep] + rest);
      SplitAppend(parts[0], [sep] + rest, sep);
      assert parts[0] + "" == parts[0];
      assert [parts[0]] + parts[1..] == parts;
    }
  }

  lemma {:induction false} SplitFirstParam(key: string, value: string, sep: char)
    requires sep !in key
    ensures SplitFirst(key + [sep] + value, sep) == (key, value)
    decreases |key|
  {
    var s := key + [sep] + value;
    if key == [] {
      assert s == [sep] + value;
    } else {
      assert s[0] == key[0] && s[1..] == key[1..] + [sep] + value;
      SplitFirstParam(key[1..], value, sep);
      assert [key[0]] + key[1..] == key;
    }
  }

  lemma {:induction false} ParsePairsParams(ps: seq<(string, string)>)
    requires WellFormed(ps)
    ensures ParsePairs(Params(ps)) == ps
    decreases |ps|
  {
    if ps != [] {
      assert Params(ps)[1..] == Params(ps[1..]);
      SplitFirstParam(ps[0].0, ps[0].1, '=');
      assert ps[0].0 + "=" + ps[0].1 == ps[0].0 + ['='] + ps[0].1;
      assert WellFormed(ps[1..]) by {
        forall i | 0 <= i < |ps[1..]|
          ensures '&' !in ps[1..][i].0 && '=' !in ps[1..][i].0 && '&' !in ps[1..][i].1
        {
          assert ps[1..][i] == ps[i + 1];
        }
      }
      ParsePairsParams(ps[1..]);
      assert [ps[0]] + ps[1..] == ps;
    }
  }

  /** Parsing the query string of well-formed parameters gives the parameters back, in order. */
  lemma ParseJoinParams(ps: seq<(string, string)>)
    requires |ps| > 0 && WellFormed(ps)
    ensures ParseQuery(JoinParams(ps)) == ps
  {
    var parts := Params(ps);
    forall i | 0 <= i < |parts|
      ensures '&' !in parts[i]
    {
      assert parts[i] == ps[i].0 + "=" + ps[i].1;
    }
    SplitJoin(parts, '&');
    ParsePairsParams(ps);
  }

  /** A character that is neither separator and occurs in no key or value does not occur in the query. */
  lemma {:induction false} JoinParamsExcludes(ps: seq<(string, string)>, c: char)
    requires c != '&' && c != '='
    requires forall i :: 0 <= i < |ps| ==> c !in ps[i].0 && c !in ps[i].1
    ensures c !in JoinParams(ps)
    decreases |ps|
  {
    if |ps| > 1 {
      JoinParamsExcludes(ps[1..], c);
      assert Params(ps)[1..] == Params(ps[1..]);
    }
  }
}

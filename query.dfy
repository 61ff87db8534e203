/**
 * The query strings the resource services build with `URLSearchParams`: an ordered list of
 * name/value pairs, its text form `name=value&name=value`, and the reading a server applies
 * to that text. Percent-encoding and its decoding are not part of this model.
 */
module Query {

  import opened Base
  import Text

  type Pair = (string, string)

  /** A name or value that carries neither query delimiter. */
  predicate Plain(s: string) {
    forall i :: 0 <= i < |s| ==> s[i] != '&' && s[i] != '='
  }

  predicate PlainPairs(ps: seq<Pair>) {
    forall i :: 0 <= i < |ps| ==> Plain(ps[i].0) && Plain(ps[i].1)
  }

  /** The names of the pairs, in order. */
  function Names(ps: seq<Pair>): (ns: seq<string>)
    ensures |ns| == |ps| && forall i :: 0 <= i < |ps| ==> ns[i] == ps[i].0
  {
    seq(|ps|, i requires 0 <= i < |ps| => ps[i].0)
  }

  /** The one-pair list `[(name, value)]` when `cond` holds, else nothing: one guarded `append`. */
  function AppendedIf(cond: bool, name: string, value: string): seq<Pair> {
    if cond then [(name, value)] else []
  }

  /** `URLSearchParams.get`: the value of the first pair with this name. */
  function Lookup(ps: seq<Pair>, name: string): (v: Option<string>)
    ensures v.None? <==> name !in Names(ps)
  {
    if ps == [] then None
    else if ps[0].0 == name then Some(ps[0].1)
    else
      assert Names(ps) == [ps[0].0] + Names(ps[1..]);
      Lookup(ps[1..], name)
  }

  /** A value found by `Lookup` is that of the first pair carrying the name. */
  lemma {:induction false} LookupFirst(ps: seq<Pair>, name: string)
    ensures var v := Lookup(ps, name);
      v.Some? ==> exists i :: 0 <= i < |ps| && ps[i] == (name, v.value) && forall j :: 0 <= j < i ==> ps[j].0 != name
    decreases |ps|
  {
    if ps != [] && ps[0].0 != name {
      var tail := ps[1..];
      LookupFirst(tail, name);
      var v := Lookup(ps, name);
      if v.Some? {
        var i :| 0 <= i < |tail| && tail[i] == (name, v.value) && forall j :: 0 <= j < i ==> tail[j].0 != name;
        assert ps[i + 1] == (name, v.value);
        forall j | 0 <= j < i + 1
          ensures ps[j].0 != name
        {
          if j > 0 {
            assert ps[j] == tail[j - 1];
          }
        }
      }
    }
  }

  /** One pair in text form. */
  function Field(p: Pair): string {
    p.0 + "=" + p.1
  }

  /** `URLSearchParams.toString()`: the fields joined by `&`; empty exactly when there are no pairs. */
  function Serialize(ps: seq<Pair>): (s: string)
    ensures s == "" <==> ps == []
  {
    if |ps| == 0 then ""
    else if |ps| == 1 then Field(ps[0])
    else Field(ps[0]) + "&" + Serialize(ps[1..])
  }

  /** Position of the first `c` in `s`, or `|s|` when there is none. */
  function IndexOf(s: string, c: char): (i: nat)
    ensures i <= |s|
    ensures forall j :: 0 <= j < i ==> s[j] != c
    ensures i < |s| ==> s[i] == c
  {
    if s == [] then 0 else if s[0] == c then 0 else 1 + IndexOf(s[1..], c)
  }

  /** One `&`-separated segment read as a pair: split at the first `=`, or the whole segment as a name. */
  function ParseField(segment: string): Pair {
    var i := IndexOf(segment, '=');
    if i < |segment| then (segment[..i], segment[i + 1..]) else (segment, "")
  }

  /** The reading of a query string: segments between `&`, empty segments skipped. */
  function Parse(s: string): seq<Pair>
    decreases |s|
  {
    if s == [] then []
    else
      var i := IndexOf(s, '&');
      var rest := if i < |s| then Parse(s[i + 1..]) else [];
      if i == 0 then rest else [ParseField(s[..i])] + rest
  }

  lemma FieldRoundTrip(p: Pair)
    requires Plain(p.0) && Plain(p.1)
    ensures IndexOf(Field(p), '&') == |Field(p)|
    ensures ParseField(Field(p)) == p
  {
    var f := Field(p);
    var i := IndexOf(f, '=');
    assert f[|p.0|] == '=';
    assert i == |p.0|;
    assert f[..i] == p.0 && f[i + 1..] == p.1;
  }

  /** Reading back the text of a list of plain pairs gives the same list, in the same order. */
  lemma {:induction false} RoundTrip(ps: seq<Pair>)
    requires PlainPairs(ps)
    ensures Parse(Serialize(ps)) == ps
    decreases |ps|
  {
    if |ps| > 0 {
      var p := ps[0];
      assert Plain(p.0) && Plain(p.1);
      FieldRoundTrip(p);
      if |ps| == 1 {
        ParseSingle(Field(p));
      } else {
        var tail := ps[1..];
        assert PlainPairs(tail) by {
          forall i | 0 <= i < |tail|
            ensures Plain(tail[i].0) && Plain(tail[i].1)
          {
            assert tail[i] == ps[i + 1];
          }
        }
        ParseJoined(Field(p), Serialize(tail));
        RoundTrip(tail);
        assert ps == [p] + tail;
      }
    }
  }

  /** A non-empty, `&`-free text is read as one field. */
  lemma ParseSingle(f: string)
    requires f != [] && IndexOf(f, '&') == |f|
    ensures Parse(f) == [ParseField(f)]
  {
    assert f[..|f|] == f;
  }

  /** Text that opens with a non-empty, `&`-free field followed by `&` is read as that field, then the rest. */
  lemma ParseJoined(f: string, rest: string)
    requires f != [] && IndexOf(f, '&') == |f|
    ensures Parse(f + "&" + rest) == [ParseField(f)] + Parse(rest)
  {
    var s := f + "&" + rest;
    assert s[|f|] == '&';
    assert forall j :: 0 <= j < |f| ==> s[j] == f[j];
    assert IndexOf(s, '&') == |f|;
    assert s[..|f|] == f && s[|f| + 1..] == rest;
  }

  /** The first match in a concatenation comes from the left part when the left part has one. */
  lemma {:induction false} LookupAppend(a: seq<Pair>, b: seq<Pair>, name: string)
    ensures Lookup(a + b, name) == if Lookup(a, name).Some? then Lookup(a, name) else Lookup(b, name)
    decreases |a|
  {
    if a != [] {
      assert (a + b)[1..] == a[1..] + b;
      LookupAppend(a[1..], b, name);
    } else {
      assert a + b == b;
    }
  }

  /** The `?` that opens a query string is in a URL exactly when a non-empty query was attached to a `?`-free path. */
  lemma QueryMark(path: string, query: string)
    requires '?' !in path
    ensures '?' in path + (if query == "" then "" else "?" + query) <==> query != ""
  {
    if query != "" {
      assert (path + ("?" + query))[|path|] == '?';
    } else {
      assert path + "" == path;
    }
  }

  /** Concatenated lists of delimiter-free pairs are delimiter-free. */
  lemma PlainPairsConcat(a: seq<Pair>, b: seq<Pair>)
    requires PlainPairs(a) && PlainPairs(b)
    ensures PlainPairs(a + b)
  {
    forall i | 0 <= i < |a + b|
      ensures Plain((a + b)[i].0) && Plain((a + b)[i].1)
    {
      if i >= |a| {
        assert (a + b)[i] == b[i - |a|];
      }
    }
  }

  /** A decimal rendering carries no query delimiter. */
  lemma PlainDecimal(n: int)
    ensures Plain(Text.IntToDecimal(n))
  {
    Text.IntToDecimalCharacters(n);
  }

  /** `xs` appears in `ys` in the same relative order. */
  predicate IsSubsequence(xs: seq<string>, ys: seq<string>)
    decreases |ys|
  {
    xs == [] || (ys != [] && if xs[0] == ys[0] then IsSubsequence(xs[1..], ys[1..]) else IsSubsequence(xs, ys[1..]))
  }

  /** The `URLSearchParams` object the services fill by successive `append` calls. */
  class SearchParams {
    var pairs: seq<Pair>

    constructor()
      ensures pairs == []
    {
      pairs := [];
    }

    method Append(name: string, value: string)
      modifies this
      ensures pairs == old(pairs) + [(name, value)]
    {
      pairs := pairs + [(name, value)];
    }

    function ToString(): string
      reads this
    {
      Serialize(pairs)
    }
  }
}

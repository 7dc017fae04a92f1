/** Relative URLs with a query string, as the pages build them with template
    literals (`/viewer?galaxy=${g}&system=${s}...`), and the lookup that
    `URLSearchParams.get` performs on the receiving page. */
module Urls {
  import opened Seqs
  import opened Text

  type Param = (string, string)

  /** The parts of `s` between occurrences of `sep` (JavaScript's `split` on one character). */
  function SplitAt(s: string, sep: char): (r: seq<string>)
    ensures |r| >= 1
    decreases |s|
  {
    match FirstIndex(s, (x: char) => x == sep)
    case None => [s]
    case Some(i) => [s[..i]] + SplitAt(s[i + 1..], sep)
  }

  /** The parts joined with `sep` between neighbours (JavaScript's `join`). */
  function Join(parts: seq<string>, sep: char): string
    requires |parts| >= 1
  {
    if |parts| == 1 then parts[0] else parts[0] + [sep] + Join(parts[1..], sep)
  }

  /** Splitting undoes joining when no part contains the separator. */
  lemma {:induction false} SplitJoin(parts: seq<string>, sep: char)
    requires |parts| >= 1
    requires forall k :: 0 <= k < |parts| ==> sep !in parts[k]
    ensures SplitAt(Join(parts, sep), sep) == parts
  {
    var s := Join(parts, sep);
    var p := (x: char) => x == sep;
    if |parts| == 1 {
      assert forall j :: 0 <= j < |s| ==> !p(s[j]);
    } else {
      var rest := Join(parts[1..], sep);
      assert s == parts[0] + [sep] + rest;
      SplitFirst(parts[0], rest, sep);
      SplitJoin(parts[1..], sep);
    }
  }

  /** A part without the separator splits off at the first separator. */
  lemma SplitFirst(part: string, rest: string, sep: char)
    requires sep !in part
    ensures SplitAt(part + [sep] + rest, sep) == [part] + SplitAt(rest, sep)
  {
    var s := part + [sep] + rest;
    var n := |part|;
    assert s[n] == sep;
    assert forall j :: 0 <= j < n ==> s[j] == part[j];
    assert FirstIndex(s, (x: char) => x == sep) == Some(n);
    assert s[..n] == part;
    assert s[n + 1..] == rest;
  }

  /** One `name=value` piece; a piece without `=` has the empty value. */
  function ParsePair(piece: string): Param
  {
    match FirstIndex(piece, (x: char) => x == '=')
    case None => (piece, "")
    case Some(i) => (piece[..i], piece[i + 1..])
  }

  /** The pairs of a query string, skipping empty pieces as `URLSearchParams` does. */
  function ParsePieces(pieces: seq<string>): seq<Param>
  {
    if pieces == [] then []
    else if pieces[0] == "" then ParsePieces(pieces[1..])
    else [ParsePair(pieces[0])] + ParsePieces(pieces[1..])
  }

  /** What follows the first `?` of a URL, or "" without one. */
  function Search(url: string): string
  {
    match FirstIndex(url, (x: char) => x == '?')
    case None => ""
    case Some(i) => url[i + 1..]
  }

  function QueryPairs(url: string): seq<Param>
  {
    ParsePieces(SplitAt(Search(url), '&'))
  }

  /** `new URLSearchParams(search).get(key)`: the value of the first pair named `key`. */
  function GetParam(url: string, key: string): (r: Option<string>)
    ensures r.None? <==> forall k :: 0 <= k < |QueryPairs(url)| ==> QueryPairs(url)[k].0 != key
    ensures r.Some? ==>
      exists k :: 0 <= k < |QueryPairs(url)| && QueryPairs(url)[k] == (key, r.value) &&
        forall j :: 0 <= j < k ==> QueryPairs(url)[j].0 != key
  {
    match Find(QueryPairs(url), (p: Param) => p.0 == key)
    case None => None
    case Some(p) => Some(p.1)
  }

  function Pieces(ps: seq<Param>): (r: seq<string>)
    ensures |r| == |ps|
    ensures forall k :: 0 <= k < |ps| ==> r[k] == ps[k].0 + "=" + ps[k].1
  {
    if ps == [] then [] else [ps[0].0 + "=" + ps[0].1] + Pieces(ps[1..])
  }

  /** `path?k1=v1&k2=v2...`, the shape every link of the site is written in. */
  function WithQuery(path: string, ps: seq<Param>): string
    requires |ps| >= 1
  {
    path + "?" + Join(Pieces(ps), '&')
  }

  /** Characters that a template literal would pass through but that `URLSearchParams`
      would read differently (separators, fragment start, and the encodings `+` and `%`). */
  predicate Plain(s: string)
  {
    forall i :: 0 <= i < |s| ==> s[i] !in {'&', '=', '?', '#', '+', '%'}
  }

  predicate PlainParams(ps: seq<Param>)
  {
    forall k :: 0 <= k < |ps| ==> Plain(ps[k].0) && Plain(ps[k].1)
  }

  lemma ParsePairOf(k: string, v: string)
    requires Plain(k) && Plain(v)
    ensures ParsePair(k + "=" + v) == (k, v)
  {
    var piece := k + "=" + v;
    var p := (x: char) => x == '=';
    assert piece[|k|] == '=';
    assert forall j :: 0 <= j < |k| ==> piece[j] == k[j];
    var r := FirstIndex(piece, p);
    assert r.Some? && r.value == |k|;
    assert piece[..|k|] == k;
    assert piece[|k| + 1..] == v;
  }

  lemma {:induction false} ParsePiecesOf(ps: seq<Param>)
    requires PlainParams(ps)
    ensures ParsePieces(Pieces(ps)) == ps
  {
    if ps != [] {
      var pieces := Pieces(ps);
      assert pieces[0] == ps[0].0 + "=" + ps[0].1;
      assert pieces[0] != "" by { assert |pieces[0]| >= 1; }
      ParsePairOf(ps[0].0, ps[0].1);
      assert pieces[1..] == Pieces(ps[1..]);
      ParsePiecesOf(ps[1..]);
    }
  }

  /** Reading back the query of a built link gives exactly the pairs it was built from. */
  lemma QueryRoundTrip(path: string, ps: seq<Param>)
    requires |ps| >= 1 && '?' !in path && PlainParams(ps)
    ensures QueryPairs(WithQuery(path, ps)) == ps
  {
    var url := WithQuery(path, ps);
    var q := Join(Pieces(ps), '&');
    var p := (x: char) => x == '?';
    assert url[|path|] == '?';
    assert forall j :: 0 <= j < |path| ==> url[j] == path[j];
    var r := FirstIndex(url, p);
    assert r.Some? && r.value == |path|;
    assert url[|path| + 1..] == q;
    assert Search(url) == q;
    var pieces := Pieces(ps);
    forall k | 0 <= k < |pieces|
      ensures '&' !in pieces[k]
    {
      assert pieces[k] == ps[k].0 + "=" + ps[k].1;
    }
    SplitJoin(pieces, '&');
    ParsePiecesOf(ps);
  }

  /** The value read back for a key is the one the link was built with (its first occurrence). */
  lemma GetParamOfBuilt(path: string, ps: seq<Param>, i: nat)
    requires |ps| >= 1 && '?' !in path && PlainParams(ps)
    requires i < |ps| && forall j :: 0 <= j < i ==> ps[j].0 != ps[i].0
    ensures GetParam(WithQuery(path, ps), ps[i].0) == Some(ps[i].1)
  {
    QueryRoundTrip(path, ps);
    var key := ps[i].0;
    var r := FirstIndex(ps, (p: Param) => p.0 == key);
    assert r.Some? && r.value == i;
  }

  /** Every value of a link built with distinct keys reads back under its key. */
  lemma QueryReadsBack(path: string, ps: seq<Param>)
    requires |ps| >= 1 && '?' !in path && PlainParams(ps)
    requires forall i, j :: 0 <= i < j < |ps| ==> ps[i].0 != ps[j].0
    ensures forall i :: 0 <= i < |ps| ==> GetParam(WithQuery(path, ps), ps[i].0) == Some(ps[i].1)
  {
    forall i | 0 <= i < |ps|
      ensures GetParam(WithQuery(path, ps), ps[i].0) == Some(ps[i].1)
    {
      GetParamOfBuilt(path, ps, i);
    }
  }

  /** A key the link was not built with is missing on the receiving page. */
  lemma GetParamAbsent(path: string, ps: seq<Param>, key: string)
    requires |ps| >= 1 && '?' !in path && PlainParams(ps)
    requires forall j :: 0 <= j < |ps| ==> ps[j].0 != key
    ensures GetParam(WithQuery(path, ps), key) == None
  {
    QueryRoundTrip(path, ps);
  }

  /** A URL without a query string has no parameters at all. */
  lemma GetParamNoQuery(url: string, key: string)
    requires '?' !in url
    ensures GetParam(url, key) == None
  {
    assert forall j :: 0 <= j < |url| ==> url[j] != '?';
    assert Search(url) == "";
    assert SplitAt("", '&') == [""];
    assert [""][1..] == [];
  }
}

/**
 * A reference reading of a request URL: the path before the first `?`, and
 * the query after it as a list of `name=value` parameters separated by `&`,
 * as an HTTP server splits it (without percent-decoding). It is the partner
 * against which the URLs built by the football-data client are checked.
 */
module QueryString {
  import opened Wrappers

  /** Splits `s` at the first occurrence of `sep`, if there is one. */
  function SplitFirst(s: string, sep: char): (r: Option<(string, string)>)
    ensures r.None? <==> sep !in s
    ensures r.Some? ==> sep !in r.value.0 && s == r.value.0 + [sep] + r.value.1
  {
    if |s| == 0 then None
    else if s[0] == sep then Some(([], s[1..]))
    else match SplitFirst(s[1..], sep)
      case None => None
      case Some((a, b)) => Some(([s[0]] + a, b))
  }

  /** The first separator after a separator-free prefix is where the split happens. */
  lemma {:induction false} SplitFirstAt(a: string, sep: char, b: string)
    requires sep !in a
    ensures SplitFirst(a + [sep] + b, sep) == Some((a, b))
  {
    if a == [] {
      assert a + [sep] + b == [sep] + b;
    } else {
      assert (a + [sep] + b)[0] == a[0] != sep;
      assert (a + [sep] + b)[1..] == a[1..] + [sep] + b;
      SplitFirstAt(a[1..], sep, b);
      assert [a[0]] + a[1..] == a;
    }
  }

  /** The pieces glued back together with `sep` between neighbours. */
  function Join(pieces: seq<string>, sep: char): string
    requires |pieces| >= 1
  {
    if |pieces| == 1 then pieces[0] else pieces[0] + [sep] + Join(pieces[1..], sep)
  }

  /** Splits `s` at every occurrence of `sep`. */
  function SplitOn(s: string, sep: char): (pieces: seq<string>)
    ensures |pieces| >= 1
    ensures forall i :: 0 <= i < |pieces| ==> sep !in pieces[i]
    ensures Join(pieces, sep) == s
    decreases |s|
  {
    match SplitFirst(s, sep)
    case None => [s]
    case Some((a, b)) =>
      var rest := SplitOn(b, sep);
      var pieces := [a] + rest;
      assert pieces[1..] == rest;
      pieces
  }

  /** Splitting undoes joining pieces that do not contain the separator. */
  lemma {:induction false} SplitOnJoin(pieces: seq<string>, sep: char)
    requires |pieces| >= 1
    requires forall i :: 0 <= i < |pieces| ==> sep !in pieces[i]
    ensures SplitOn(Join(pieces, sep), sep) == pieces
  {
    if |pieces| > 1 {
      SplitFirstAt(pieces[0], sep, Join(pieces[1..], sep));
      SplitOnJoin(pieces[1..], sep);
    }
  }

  /** One query piece as a name and a value: a piece without `=` is a name with an empty value. */
  function ParseParam(piece: string): (p: (string, string))
    ensures '=' !in p.0
    ensures piece == if '=' in piece then p.0 + "=" + p.1 else p.0
  {
    match SplitFirst(piece, '=')
    case None => (piece, "")
    case Some((name, value)) => (name, value)
  }

  /** The parameters of a list of query pieces; empty pieces (from `&&`) are skipped. */
  function Params(pieces: seq<string>): (ps: seq<(string, string)>)
    ensures |ps| <= |pieces|
  {
    if pieces == [] then []
    else if pieces[0] == "" then Params(pieces[1..])
    else [ParseParam(pieces[0])] + Params(pieces[1..])
  }

  /** The part of a URL before its query. */
  function PathOf(url: string): (path: string)
    ensures '?' !in path
    ensures path <= url
    ensures path == url <==> '?' !in url
  {
    match SplitFirst(url, '?')
    case None => url
    case Some((path, _)) => path
  }

  /** The parameters of a URL's query, in the order they appear; none when there is no query. */
  function QueryParams(url: string): seq<(string, string)>
  {
    match SplitFirst(url, '?')
    case None => []
    case Some((_, query)) => Params(SplitOn(query, '&'))
  }

  /** Whether some parameter is called `name`. */
  predicate HasParam(ps: seq<(string, string)>, name: string)
  {
    exists i :: 0 <= i < |ps| && ps[i].0 == name
  }

  /** Reading `path?` followed by `name=value` pieces joined with `&` gives those pieces back. */
  lemma ReadBack(path: string, pieces: seq<(string, string)>)
    requires '?' !in path
    requires |pieces| >= 1
    requires forall i :: 0 <= i < |pieces| ==> pieces[i].0 != "" && '=' !in pieces[i].0
    requires forall i :: 0 <= i < |pieces| ==> '&' !in pieces[i].0 && '&' !in pieces[i].1
    ensures PathOf(path + "?" + Join(Rendered(pieces), '&')) == path
    ensures QueryParams(path + "?" + Join(Rendered(pieces), '&')) == pieces
  {
    var query := Join(Rendered(pieces), '&');
    SplitFirstAt(path, '?', query);
    SplitOnJoin(Rendered(pieces), '&');
    ParamsOfRendered(pieces);
  }

  /** Each parameter written as `name=value`. */
  function Rendered(ps: seq<(string, string)>): (pieces: seq<string>)
    ensures |pieces| == |ps|
    ensures forall i :: 0 <= i < |ps| ==> pieces[i] == ps[i].0 + "=" + ps[i].1
  {
    if ps == [] then [] else [ps[0].0 + "=" + ps[0].1] + Rendered(ps[1..])
  }

  lemma {:induction false} ParamsOfRendered(ps: seq<(string, string)>)
    requires forall i :: 0 <= i < |ps| ==> ps[i].0 != "" && '=' !in ps[i].0
    ensures Params(Rendered(ps)) == ps
  {
    if ps != [] {
      var piece := ps[0].0 + "=" + ps[0].1;
      SplitFirstAt(ps[0].0, '=', ps[0].1);
      assert piece != "";
      assert Rendered(ps)[1..] == Rendered(ps[1..]);
      ParamsOfRendered(ps[1..]);
    }
  }
}

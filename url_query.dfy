/**
 * `URLSearchParams` as the pages use it: an ordered list of name/value pairs,
 * its `toString` serialization, the parse of a query string back into pairs,
 * and `get`, which answers the first value under a name.
 */
module UrlQuery {
  import opened Wrappers
  import opened Text
  import opened UrlEncoding

  type Params = seq<(string, string)>

  function Piece(p: (string, string)): string {
    FormEncode(p.0) + "=" + FormEncode(p.1)
  }

  function Pieces(ps: Params): (pieces: seq<string>)
    ensures |pieces| == |ps|
    ensures forall i :: 0 <= i < |ps| ==> pieces[i] == Piece(ps[i])
  {
    if ps == [] then [] else [Piece(ps[0])] + Pieces(ps[1..])
  }

  /** `params.toString()`: each pair serialized as `name=value`, joined with `&`. */
  function Serialize(ps: Params): (q: string)
    ensures q == "" <==> ps == []
  {
    var pieces := Pieces(ps);
    assert ps != [] ==> '=' in Join(pieces, "&") by {
      if ps != [] {
        var e := FormEncode(ps[0].0);
        assert pieces[0] == e + "=" + FormEncode(ps[0].1);
        assert pieces[0][|e|] == '=';
        JoinStartsWithFirst(pieces, "&");
      }
    }
    Join(pieces, "&")
  }

  lemma JoinStartsWithFirst(parts: seq<string>, sep: string)
    requires |parts| >= 1
    ensures |parts[0]| <= |Join(parts, sep)| && Join(parts, sep)[..|parts[0]|] == parts[0]
  {
    if |parts| > 1 {
      assert Join(parts, sep) == parts[0] + (sep + Join(parts[1..], sep));
    }
  }

  /** One `name=value` piece read back: split at the first `=`, a missing `=` meaning an empty value. */
  function ParsePiece(piece: string): (string, string) {
    var i := IndexOf(piece, '=');
    if i < |piece| then (FormDecode(piece[..i]), FormDecode(piece[i + 1..]))
    else (FormDecode(piece), "")
  }

  function ParsePieces(pieces: seq<string>): Params {
    if pieces == [] then []
    else if pieces[0] == "" then ParsePieces(pieces[1..])
    else [ParsePiece(pieces[0])] + ParsePieces(pieces[1..])
  }

  /** The `application/x-www-form-urlencoded` parser: split on `&`, empty pieces skipped. */
  function Parse(query: string): Params {
    ParsePieces(Split(query, '&'))
  }

  /** `params.get(name)`: the first value under the name, or `null`. */
  function Get(ps: Params, name: string): (r: Option<string>)
    ensures r.Some? <==> exists i :: 0 <= i < |ps| && ps[i].0 == name
    ensures r.Some? ==> exists i :: 0 <= i < |ps| && ps[i] == (name, r.value)
                                     && forall j :: 0 <= j < i ==> ps[j].0 != name
  {
    if ps == [] then None
    else if ps[0].0 == name then Some(ps[0].1)
    else
      var r := Get(ps[1..], name);
      if r.Some? then
        var i :| 0 <= i < |ps[1..]| && ps[1..][i] == (name, r.value) && forall j :: 0 <= j < i ==> ps[1..][j].0 != name;
        assert ps[i + 1] == (name, r.value);
        r
      else r
  }

  lemma PieceRoundTrip(p: (string, string))
    ensures ParsePiece(Piece(p)) == p
  {
    var e := FormEncode(p.0);
    var piece := Piece(p);
    FormEncodeHasNoSeparators(p.0);
    assert piece[|e|] == '=';
    assert forall j :: 0 <= j < |e| ==> piece[j] == e[j];
    assert IndexOf(piece, '=') == |e|;
    assert piece[..|e|] == e;
    assert piece[|e| + 1..] == FormEncode(p.1);
    FormRoundTrip(p.0);
    FormRoundTrip(p.1);
  }

  lemma {:induction false} ParsePiecesRoundTrip(ps: Params)
    ensures ParsePieces(Pieces(ps)) == ps
  {
    if ps != [] {
      var pieces := Pieces(ps);
      assert pieces[0] == Piece(ps[0]);
      assert |pieces[0]| > 0 by {
        assert |Piece(ps[0])| == |FormEncode(ps[0].0)| + 1 + |FormEncode(ps[0].1)|;
      }
      assert pieces[1..] == Pieces(ps[1..]);
      PieceRoundTrip(ps[0]);
      ParsePiecesRoundTrip(ps[1..]);
    }
  }

  /** Parsing a serialized list gives back every pair, in order, duplicates and empty values included. */
  lemma ParseSerialize(ps: Params)
    ensures Parse(Serialize(ps)) == ps
  {
    if ps != [] {
      var pieces := Pieces(ps);
      forall i | 0 <= i < |pieces|
        ensures '&' !in pieces[i]
      {
        FormEncodeHasNoSeparators(ps[i].0);
        FormEncodeHasNoSeparators(ps[i].1);
      }
      SplitJoin(pieces, '&');
      ParsePiecesRoundTrip(ps);
    }
  }
}
